/**
 * The logic inside the Compose screens: which models the picker lists and
 * under what label, how a chat role is shown, and what the Send button does
 * with the text field.
 */
module Screens {
  import opened Wrappers
  import opened Text
  import opened ViewModel

  // ---------------------------------------------------------------------------
  // Model picker
  // ---------------------------------------------------------------------------

  /** models.filter { it in WHITELIST.keys }. */
  function FilterWhitelisted(models: seq<string>): (shown: seq<string>)
    ensures |shown| <= |models|
    ensures forall m :: m in shown <==> m in models && m in Whitelist
  {
    if models == [] then []
    else
      var init := models[..|models| - 1];
      var last := models[|models| - 1];
      assert models == init + [last];
      FilterWhitelisted(init) + (if last in Whitelist then [last] else [])
  }

  /** The ids the model picker lists for a state. */
  function DisplayedModels(state: UiState): (shown: seq<string>)
    ensures forall m :: m in shown ==> m in Whitelist
  {
    FilterWhitelisted(state.models)
  }

  /** The positions of models that the filter keeps, in increasing order. */
  function KeptPositions(models: seq<string>): seq<nat> {
    if models == [] then []
    else
      var n := |models| - 1;
      KeptPositions(models[..n]) + (if models[n] in Whitelist then [n] else [])
  }

  /**
   * The filter keeps order: the shown ids are the models at strictly
   * increasing positions, so the result is a subsequence of the input.
   */
  lemma {:induction false} FilterKeepsOrder(models: seq<string>)
    ensures var shown, pos := FilterWhitelisted(models), KeptPositions(models);
      && |pos| == |shown|
      && (forall k :: 0 <= k < |pos| ==> pos[k] < |models| && models[pos[k]] == shown[k])
      && (forall k, l :: 0 <= k < l < |pos| ==> pos[k] < pos[l])
  {
    if models != [] {
      var n := |models| - 1;
      FilterKeepsOrder(models[..n]);
      var shown, pos := FilterWhitelisted(models), KeptPositions(models);
      var shown', pos' := FilterWhitelisted(models[..n]), KeptPositions(models[..n]);
      assert forall k :: 0 <= k < |pos'| ==> pos[k] == pos'[k] && shown[k] == shown'[k];
      assert forall k :: 0 <= k < |pos'| ==> models[pos'[k]] == models[..n][pos'[k]];
    }
  }

  /** Each whitelisted id is shown exactly as often as it occurs in the input; no other id is shown. */
  lemma {:induction false} FilterCounts(models: seq<string>)
    ensures forall m :: m in Whitelist ==> multiset(FilterWhitelisted(models))[m] == multiset(models)[m]
    ensures forall m :: m !in Whitelist ==> multiset(FilterWhitelisted(models))[m] == 0
  {
    if models != [] {
      var n := |models| - 1;
      FilterCounts(models[..n]);
      assert models == models[..n] + [models[n]];
    }
  }

  /** WHITELIST[modelId] ?: modelId: the whitelist label, or the id itself. */
  function FriendlyName(modelId: string): (name: string)
    ensures modelId in Whitelist ==> name == Whitelist[modelId]
    ensures modelId !in Whitelist ==> name == modelId
  {
    if modelId in Whitelist then Whitelist[modelId] else modelId
  }

  /** Every label the picker shows is one of the whitelist's labels. */
  lemma DisplayedLabelsFromWhitelist(state: UiState)
    ensures forall m :: m in DisplayedModels(state) ==> FriendlyName(m) in Whitelist.Values
  {
  }

  /** The "No whitelisted models available" notice is shown when the picker list is empty. */
  predicate ShowsNoModelsNotice(state: UiState) {
    |DisplayedModels(state)| == 0
  }

  /** The notice is shown exactly when the server listed no whitelisted model. */
  lemma NoticeIffNoWhitelisted(state: UiState)
    ensures ShowsNoModelsNotice(state) <==> forall m :: m in state.models ==> m !in Whitelist
  {
    var shown := DisplayedModels(state);
    if !ShowsNoModelsNotice(state) {
      assert shown[0] in shown;
    }
  }

  // ---------------------------------------------------------------------------
  // Chat screen
  // ---------------------------------------------------------------------------

  const UserLabel: string := "Nini"
  const AssistantLabel: string := "Tari"

  /** friendlyRole: the speaker's display name. */
  function FriendlyRole(raw: string): (name: string)
    ensures name == UserLabel || name == AssistantLabel || name == Capitalize(raw)
    ensures |name| == 0 <==> |raw| == 0
  {
    var lower := Lowercase(raw);
    if lower == "user" then UserLabel
    else if lower == "assistant" then AssistantLabel
    else Capitalize(raw)
  }

  /**
   * "user" in any letter case is shown as Nini, "assistant" in any letter case
   * as Tari, and any other role capitalised.
   */
  lemma FriendlyRoleCases(raw: string)
    ensures AnyCaseOf(raw, "user") ==> FriendlyRole(raw) == UserLabel
    ensures AnyCaseOf(raw, "assistant") ==> FriendlyRole(raw) == AssistantLabel
    ensures !AnyCaseOf(raw, "user") && !AnyCaseOf(raw, "assistant") ==> FriendlyRole(raw) == Capitalize(raw)
  {
    assert IsLowerWord("user") && IsLowerWord("assistant");
    LowercaseEqualsWord(raw, "user");
    LowercaseEqualsWord(raw, "assistant");
  }

  /**
   * The Send button: non-blank input is sent trimmed and the field is reset;
   * blank input sends nothing and stays in the field.
   */
  function SendClick(input: string): (r: (Option<string>, string))
    ensures r.0.Some? <==> !IsBlank(input)
    ensures r.0.Some? ==> r.0.value == Trim(input) && r.1 == ""
    ensures r.0.None? ==> r.1 == input
  {
    if !IsBlank(input) then (Some(Trim(input)), "") else (None, input)
  }

  /**
   * What is sent is a non-empty piece of the input without whitespace at
   * either end, and everything cut off around it is whitespace.
   */
  lemma SentTextIsTrimmed(input: string)
    requires !IsBlank(input)
    ensures var sent := SendClick(input).0.value;
      && sent != []
      && !IsWhitespace(sent[0]) && !IsWhitespace(sent[|sent| - 1])
      && (exists i :: 0 <= i <= |input| - |sent| && sent == input[i..i + |sent|]
            && IsBlank(input[..i]) && IsBlank(input[i + |sent|..]))
  {
    TrimIsSlice(input);
  }
}
