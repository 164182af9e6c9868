/** `<Toggle>`: its id and its change handler. */
module Toggle {
  import opened Wrappers
  import Seqs
  import Slug

  /** The `checked` prop, `false` when it is not given. */
  function Checked(prop: Option<bool>): (c: bool)
    ensures c <==> prop == Some(true)
  {
    match prop
    case Some(b) => b
    case None => false
  }

  /** `toggleId`: a non-empty `id` wins, otherwise the slug of the label. */
  function ToggleId(id: Option<string>, text: string): (r: string)
    ensures id.Some? && id.value != "" ==> r == id.value
    ensures id.None? || id.value == "" ==> r == Slug.Slug(text)
  {
    if id.Some? && id.value != "" then id.value else Slug.Slug(text)
  }

  /** Without an id the toggle's id holds no whitespace, keeps the label's other characters in
      order (lowercased), and is the lowercased label when that has no whitespace. */
  lemma DerivedIdIsSlug(text: string)
    ensures Slug.NoSpace(ToggleId(None, text))
    ensures Seqs.IsSubsequence(Seqs.Filter(Slug.NotSpace, Slug.Lower(text)), ToggleId(None, text))
    ensures Slug.NoSpace(text) ==> ToggleId(None, text) == Slug.Lower(text)
  {
    Slug.HyphenateKeepsOrder(Slug.Lower(text));
    if Slug.NoSpace(text) {
      Slug.SlugOfWord(text);
    }
  }

  /** `handleChange`: the value `onCheckedChange` is called with, if it is called at all. */
  function HandleChange(disabled: bool, hasCallback: bool, checked: bool): (r: Option<bool>)
    ensures r.Some? <==> !disabled && hasCallback
    ensures r.Some? ==> r.value != checked
  {
    if !disabled && hasCallback then Some(!checked) else None
  }

  /** A parent that feeds the reported value back as `checked` is restored by a second change. */
  lemma ChangeTwiceRestores(disabled: bool, hasCallback: bool, checked: bool)
    requires !disabled && hasCallback
    ensures HandleChange(disabled, hasCallback, HandleChange(disabled, hasCallback, checked).value)
            == Some(checked)
  {
  }
}
