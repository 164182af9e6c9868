/** `<Input>`: its id, and which of label, error and helper text it shows. */
module Input {
  import opened Wrappers
  import Slug
  import Toggle

  /** A string prop that is given and not empty, i.e. truthy. */
  predicate Given(p: Option<string>) {
    p.Some? && p.value != ""
  }

  /** `inputId`: a non-empty `id` wins, otherwise the slug of the label, otherwise undefined. */
  function InputId(id: Option<string>, text: Option<string>): (r: Option<string>)
    ensures Given(id) ==> r == id
    ensures !Given(id) && text.None? ==> r.None?
    ensures !Given(id) && text.Some? ==> r == Some(Slug.Slug(text.value))
  {
    if Given(id) then id
    else match text
      case None => None
      case Some(t) => Some(Slug.Slug(t))
  }

  /** Given a label, Input derives its id exactly as Toggle does. */
  lemma SameIdAsToggle(id: Option<string>, text: string)
    ensures InputId(id, Some(text)) == Some(Toggle.ToggleId(id, text))
  {
  }

  datatype InputProps = InputProps(
    text: Option<string>, error: Option<string>, helperText: Option<string>, id: Option<string>)

  /** The `<label>` element: its `htmlFor` and its text. */
  datatype Caption = Caption(htmlFor: Option<string>, text: string)

  const ErrorBorder: string := "border-error focus:border-error"
  const NormalBorder: string := "border-foreground/30 focus:border-primary"

  /** What the component renders: the optional label, the input's id and border classes,
      and the optional error and helper paragraphs. */
  datatype InputView = InputView(
    caption: Option<Caption>, inputId: Option<string>, border: string,
    errorParagraph: Option<string>, helperParagraph: Option<string>)

  function Render(p: InputProps): (v: InputView)
    ensures v.inputId == InputId(p.id, p.text)
    ensures v.caption.Some? <==> Given(p.text)
    ensures v.caption.Some? ==> v.caption.value == Caption(v.inputId, p.text.value)
    ensures v.border == ErrorBorder <==> Given(p.error)
    ensures v.border == NormalBorder <==> !Given(p.error)
    ensures v.errorParagraph.Some? <==> Given(p.error)
    ensures v.errorParagraph.Some? ==> v.errorParagraph == p.error
    ensures v.helperParagraph.Some? <==> Given(p.helperText) && !Given(p.error)
    ensures v.helperParagraph.Some? ==> v.helperParagraph == p.helperText
  {
    var inputId := InputId(p.id, p.text);
    InputView(
      if Given(p.text) then Some(Caption(inputId, p.text.value)) else None,
      inputId,
      if Given(p.error) then ErrorBorder else NormalBorder,
      if Given(p.error) then p.error else None,
      if Given(p.helperText) && !Given(p.error) then p.helperText else None)
  }

  /** At most one paragraph shows under the input, and an error always takes its place. */
  lemma OneMessageAtMost(p: InputProps)
    ensures Render(p).errorParagraph.None? || Render(p).helperParagraph.None?
    ensures Given(p.error) ==> Render(p).errorParagraph == p.error
  {
  }
}
