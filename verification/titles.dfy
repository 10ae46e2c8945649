/** The title drawn into the top border and its horizontal alignment. */
module Titles {

  datatype Align = Left | Middle | Right

  datatype Title = Title(text: string, align: Align)

  /** `Title::new`: no text, left-aligned. */
  function NewTitle(): (t: Title)
    ensures t.text == [] && t.align == Left
  {
    Title("", Left)
  }

  /** `Title::set_title`: replaces the text and keeps the alignment. */
  function SetTitle(t: Title, text: string): (r: Title)
    ensures r.text == text && r.align == t.align
  {
    t.(text := text)
  }

  /** `Title::set_align`: replaces the alignment and keeps the text. */
  function SetAlign(t: Title, align: Align): (r: Title)
    ensures r.align == align && r.text == t.text
  {
    t.(align := align)
  }

  /** The two setters touch disjoint fields, so they commute, and the later
      call of the same setter wins. */
  lemma SettersIndependent(t: Title, text: string, text2: string, a: Align, b: Align)
    ensures SetAlign(SetTitle(t, text), a) == SetTitle(SetAlign(t, a), text)
    ensures SetAlign(SetAlign(t, a), b) == SetAlign(t, b)
    ensures SetTitle(SetTitle(t, text), text2) == SetTitle(t, text2)
    ensures SetAlign(t, t.align) == t && SetTitle(t, t.text) == t
  {
  }
}
