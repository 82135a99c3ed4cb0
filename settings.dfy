/** The language model the page starts with. */
module Settings {
  import opened Wrappers

  /** The model assigned when none is stored or the stored one cannot be selected. */
  const DefaultModel: string := "1.5-flash"

  /** What the model selector reads back after `v` is assigned to it: `v` when it is one of its options, "" otherwise. */
  function Select(v: string, options: set<string>): string
  {
    if v in options then v else ""
  }

  /**
   * The stored model (storage returns the default when the key is absent) is
   * assigned to the model selector; if the selector then reads back "", the
   * default is assigned to it instead, and the selector's value is the result.
   * The result is an option or "", and it is never "" when the default is an
   * option. It is the stored model whenever that one can be selected, and
   * otherwise whatever the selector makes of the default.
   */
  function InitialModel(stored: Option<string>, options: set<string>): (m: string)
    ensures m == "" || m in options
    ensures DefaultModel in options ==> m != ""
    ensures stored.Some? && stored.value in options && stored.value != "" ==> m == stored.value
    ensures stored.None? || stored.value !in options || stored.value == "" ==>
      m == (if DefaultModel in options then DefaultModel else "")
  {
    var selected := Select(stored.GetOr(DefaultModel), options);
    if selected == "" then Select(DefaultModel, options) else selected
  }
}
