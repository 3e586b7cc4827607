/** The browser controller (class GenVisionHub): model selection, the prompt
    counter, the generate button, the generate request's lifecycle, likes and
    the history panel.

    The controller's whole state is the value HubState. Each event handler is
    a pure transition on it (Toggled, Typed, Submitted, Settled, ...), whose
    contract and lemmas state what the page promises; the class Hub holds the
    same state in fields and its methods are proved to make exactly those
    transitions. */
module Client {
  import opened Text
  import opened Api

  // ---------------------------------------------------------------------
  // The selection: a JavaScript Set of model ids. A Set iterates in insertion
  // order, and that order is what the request sends, so it is kept as a
  // sequence without repetitions.

  predicate Distinct(s: seq<string>) {
    forall i, j :: 0 <= i < j < |s| ==> s[i] != s[j]
  }

  function Elements(s: seq<string>): set<string> {
    set x | x in s
  }

  /** Set.prototype.add: a new id goes last, a present one changes nothing. */
  function SetAdd(s: seq<string>, id: string): (r: seq<string>)
    ensures Elements(r) == Elements(s) + {id}
    ensures Distinct(s) ==> Distinct(r)
    ensures |s| <= |r| && r[..|s|] == s
  {
    if id in s then s else s + [id]
  }

  /** Set.prototype.delete: the id is gone, the others keep their order. */
  function SetDelete(s: seq<string>, id: string): (r: seq<string>)
    ensures Elements(r) == Elements(s) - {id}
    ensures Distinct(s) ==> Distinct(r)
    ensures |r| <= |s|
    ensures id !in s ==> r == s
    ensures Distinct(s) ==> forall k :: 0 <= k < |s| && s[k] == id ==> r == s[..k] + s[k + 1..]
    decreases |s|
  {
    if s == [] then []
    else
      var rest := SetDelete(s[1..], id);
      var r := if s[0] == id then rest else [s[0]] + rest;
      DeleteStepElements(s, id, rest, r);
      DeleteStepOrder(s, id, rest, r);
      r
  }

  /** One step of SetDelete: which ids remain, and that none repeats. */
  lemma DeleteStepElements(s: seq<string>, id: string, rest: seq<string>, r: seq<string>)
    requires s != [] && r == (if s[0] == id then rest else [s[0]] + rest)
    requires Elements(rest) == Elements(s[1..]) - {id}
    requires Distinct(s[1..]) ==> Distinct(rest)
    requires |rest| <= |s| - 1
    ensures Elements(r) == Elements(s) - {id}
    ensures Distinct(s) ==> Distinct(r)
    ensures |r| <= |s|
  {
    assert Elements(s) == {s[0]} + Elements(s[1..]);
    if s[0] != id {
      assert Elements([s[0]] + rest) == {s[0]} + Elements(rest);
      assert Distinct(s) ==> s[0] !in s[1..] && s[0] !in rest;
    }
  }

  /** One step of SetDelete: the ids that remain keep their order. */
  lemma DeleteStepOrder(s: seq<string>, id: string, rest: seq<string>, r: seq<string>)
    requires s != [] && r == (if s[0] == id then rest else [s[0]] + rest)
    requires id !in s[1..] ==> rest == s[1..]
    requires Distinct(s[1..]) ==>
      forall k :: 0 <= k < |s| - 1 && s[1..][k] == id ==> rest == s[1..][..k] + s[1..][k + 1..]
    ensures id !in s ==> r == s
    ensures Distinct(s) ==> forall k :: 0 <= k < |s| && s[k] == id ==> r == s[..k] + s[k + 1..]
  {
    assert s == [s[0]] + s[1..];
    if Distinct(s) {
      forall k | 0 <= k < |s| && s[k] == id
        ensures r == s[..k] + s[k + 1..]
      {
        if k == 0 {
          assert id !in s[1..];
        } else {
          assert s[1..][k - 1] == id;
          assert s[..k] == [s[0]] + s[1..][..k - 1];
          assert s[k + 1..] == s[1..][k..];
        }
      }
    }
  }

  /** Deleting an id twice is deleting it once. */
  lemma {:induction false} SetDeleteIdempotent(s: seq<string>, id: string)
    ensures SetDelete(SetDelete(s, id), id) == SetDelete(s, id)
    decreases |s|
  {
    if s != [] {
      SetDeleteIdempotent(s[1..], id);
      if s[0] != id {
        var r := SetDelete(s, id);
        assert r[1..] == SetDelete(s[1..], id);
      }
    }
  }

  /** A Set's size is the number of distinct ids in it. */
  lemma {:induction false} DistinctSize(s: seq<string>)
    requires Distinct(s)
    ensures |Elements(s)| == |s|
    decreases |s|
  {
    if s != [] {
      DistinctSize(s[1..]);
      assert Elements(s) == {s[0]} + Elements(s[1..]);
      assert s[0] !in Elements(s[1..]);
    }
  }

  // ---------------------------------------------------------------------
  // What the page shows, as pure functions of the controller's state

  /** The colour of the character counter. */
  datatype Tier = Secondary | Warning | Danger

  const WarningAbove: nat := 350
  const DangerAbove: nat := 450

  /** The counter's three-tier colour on the prompt's length. */
  function CounterTier(length: nat): (t: Tier)
    ensures t == Secondary <==> length <= WarningAbove
    ensures t == Warning <==> WarningAbove < length <= DangerAbove
    ensures t == Danger <==> DangerAbove < length
  {
    if length > DangerAbove then Danger
    else if length > WarningAbove then Warning
    else Secondary
  }

  /** The counter element: the length as text and its colour. */
  datatype Counter = Counter(text: string, tier: Tier)

  /** The counter counts the untrimmed input. */
  function CounterFor(input: string): Counter {
    Counter(NatToString(|input|), CounterTier(|input|))
  }

  const IdleLabel: string := "Generate Videos"
  const BusyLabel: string := "Generating..."

  /** Whether the generate button is enabled: some non-blank prompt text,
      some model selected, and no request in flight. */
  function CanGenerate(input: string, selectedCount: nat, generating: bool): bool {
    |Trim(JavaScript, input)| > 0 && selectedCount > 0 && !generating
  }

  /** The button is enabled exactly when the prompt has a non-whitespace
      character, some model is selected and no request is in flight. */
  lemma CanGenerateIffNonBlank(input: string, selectedCount: nat, generating: bool)
    ensures CanGenerate(input, selectedCount, generating) <==>
      !AllSpace(JavaScript, input) && selectedCount > 0 && !generating
  {
    TrimEmptyIffBlank(JavaScript, input);
  }

  /** The generate button: disabled flag and label text. */
  datatype Button = Button(disabled: bool, text: string)

  function ButtonFor(input: string, selectedCount: nat, generating: bool): (b: Button)
    ensures b.disabled <==> !CanGenerate(input, selectedCount, generating)
    ensures b.text == BusyLabel <==> generating
  {
    Button(!CanGenerate(input, selectedCount, generating), if generating then BusyLabel else IdleLabel)
  }

  /** The model dropdown's label and whether it is drawn emphasised
      (btn-light rather than btn-outline-light). */
  datatype Dropdown = Dropdown(text: string, emphasised: bool)

  const NoModelsLabel: string := "Select Models"

  /** The dropdown's label: "Select Models" for no selection, otherwise
      "Models (n)", whose digits read back as the count. */
  function DropdownFor(count: nat): (d: Dropdown)
    ensures d.text == NoModelsLabel <==> count == 0
    ensures d.emphasised <==> count > 0
    ensures count > 0 ==>
      && |d.text| > 9 && d.text[..8] == "Models (" && d.text[|d.text| - 1] == ')'
      && IsDigits(d.text[8..|d.text| - 1]) && DecimalValue(d.text[8..|d.text| - 1]) == count
  {
    if count == 0 then Dropdown(NoModelsLabel, false)
    else
      var digits := NatToString(count);
      var text := "Models (" + digits + ")";
      assert text[0] == 'M' != NoModelsLabel[0];
      assert text[8..|text| - 1] == digits;
      DecimalRoundTrip(count);
      Dropdown(text, true)
  }

  /** The dropdown label tells selection sizes apart. */
  lemma DropdownShowsCount(a: nat, b: nat)
    ensures DropdownFor(a).text == DropdownFor(b).text ==> a == b
  {
  }

  /** truncateText: the text itself when it fits, otherwise its first
      maxLength characters and an ellipsis. */
  function TruncateText(text: string, maxLength: nat): (r: string)
    ensures Min(|text|, maxLength) <= |r| <= maxLength + 3
    ensures r[..Min(|text|, maxLength)] == text[..Min(|text|, maxLength)]
    ensures r == text <==> |text| <= maxLength || (|text| == maxLength + 3 && text[maxLength..] == "...")
    ensures |text| > maxLength ==> |r| == maxLength + 3 && r[maxLength..] == "..."
  {
    if |text| <= maxLength then text else text[..maxLength] + "..."
  }

  /** The history panel cuts prompts to this many characters. */
  const HistoryPromptLength: nat := 60

  // ---------------------------------------------------------------------
  // Relative time of a history entry

  const HourMs: int := 3600000
  const DayMs: int := 24 * HourMs

  /** The bucket formatDate puts an age into. */
  datatype Age = JustNow | HoursAgo(hours: nat) | DaysAgo(days: nat) | Older

  /** Whole hours are Math.floor(diff / 3600000); Dafny's division rounds
      down for a positive divisor, negative ages included. */
  function AgeOf(diffMs: int): (a: Age)
    ensures a == JustNow <==> diffMs < HourMs
    ensures a.HoursAgo? ==> 1 <= a.hours < 24 && a.hours * HourMs <= diffMs < (a.hours + 1) * HourMs
    ensures a.DaysAgo? ==> 1 <= a.days <= 6 && a.days * DayMs <= diffMs < (a.days + 1) * DayMs
    ensures a == Older <==> 7 * DayMs <= diffMs
  {
    var hours := diffMs / HourMs;
    if hours < 1 then JustNow
    else if hours < 24 then HoursAgo(hours)
    else if hours < 24 * 7 then DaysAgo(hours / 24)
    else Older
  }

  /** Orders the buckets from newest to oldest. */
  function AgeRank(a: Age): nat {
    match a
    case JustNow => 0
    case HoursAgo(_) => 1
    case DaysAgo(_) => 2
    case Older => 3
  }

  /** An older entry never lands in a newer bucket. */
  lemma AgeOfMonotone(x: int, y: int)
    requires x <= y
    ensures AgeRank(AgeOf(x)) <= AgeRank(AgeOf(y))
    ensures AgeOf(x).HoursAgo? && AgeOf(y).HoursAgo? ==> AgeOf(x).hours <= AgeOf(y).hours
    ensures AgeOf(x).DaysAgo? && AgeOf(y).DaysAgo? ==> AgeOf(x).days <= AgeOf(y).days
  {
  }

  /** formatDate. The age is None when the timestamp does not parse (NaN
      fails every comparison); localeDate is the runtime's
      toLocaleDateString() text. */
  function FormatDate(diffMs: Option<int>, localeDate: string): (text: string)
    ensures diffMs.None? ==> text == localeDate
    ensures diffMs.Some? ==>
      var h := diffMs.value / HourMs;
      && (h < 1 ==> text == "Just now")
      && (1 <= h < 24 ==> text == NatToString(h) + "h ago")
      && (24 <= h < 24 * 7 ==> text == NatToString(h / 24) + "d ago")
      && (24 * 7 <= h ==> text == localeDate)
  {
    match diffMs
    case None => localeDate
    case Some(d) =>
      match AgeOf(d)
      case JustNow => "Just now"
      case HoursAgo(h) => NatToString(h) + "h ago"
      case DaysAgo(n) => NatToString(n) + "d ago"
      case Older => localeDate
  }

  /** Thirty minutes, five hours, three days and ten days ago. */
  lemma FormatDateSamples(localeDate: string)
    ensures FormatDate(Some(30 * 60000), localeDate) == "Just now"
    ensures FormatDate(Some(5 * HourMs), localeDate) == "5h ago"
    ensures FormatDate(Some(3 * DayMs), localeDate) == "3d ago"
    ensures FormatDate(Some(10 * DayMs), localeDate) == localeDate
  {
    assert NatToString(5) == "5";
    assert NatToString(3) == "3";
  }

  // ---------------------------------------------------------------------
  // The history panel

  /** One rendered history item: shortened prompt, one badge per model name in
      entry order, and the relative time. */
  datatype HistoryItem = HistoryItem(prompt: string, badges: seq<string>, when: string)

  datatype HistoryView = NoRecentPrompts | Items(items: seq<HistoryItem>)

  function RenderEntry(e: HistoryEntry, ageOf: Timestamp -> Option<int>,
                       dateOf: Timestamp -> string): HistoryItem
  {
    HistoryItem(TruncateText(e.prompt, HistoryPromptLength), e.models,
                FormatDate(ageOf(e.timestamp), dateOf(e.timestamp)))
  }

  /** displayHistory: the empty-state text for no entries, otherwise one item
      per entry in the order held. */
  function RenderHistory(entries: seq<HistoryEntry>, ageOf: Timestamp -> Option<int>,
                         dateOf: Timestamp -> string): (v: HistoryView)
    ensures v == NoRecentPrompts <==> entries == []
    ensures v.Items? ==> |v.items| == |entries|
    ensures v.Items? ==>
      forall i :: 0 <= i < |entries| ==> v.items[i] == RenderEntry(entries[i], ageOf, dateOf)
  {
    if |entries| == 0 then NoRecentPrompts
    else Items(seq(|entries|, i requires 0 <= i < |entries| => RenderEntry(entries[i], ageOf, dateOf)))
  }

  // ---------------------------------------------------------------------
  // Talking to the server

  /** A notification: a success toast or the error modal. */
  datatype Notice = Success(text: string) | Failure(text: string)

  /** A request the controller sends. */
  datatype Call = GenerateCall(prompt: string, models: seq<string>) | LikeCall(videoId: string) | HistoryCall

  /** How a request settles: a 2xx response with its JSON body, a non-2xx
      response whose JSON body may carry an error field, or a thrown error
      (network failure, unparseable body) with its message. */
  datatype Outcome<T> = Ok(value: T) | HttpError(error: Option<string>) | TransportError(message: string)

  /** The body of a successful generate response. */
  datatype Batch = Batch(results: seq<VideoResult>, message: string)

  const EnterPrompt: string := "Please enter a prompt"
  const GenerateFailed: string := "Failed to generate videos"
  const GenerateRetry: string := "Failed to generate videos. Please try again."
  const LikeFailed: string := "Failed to like video"
  const Liked: string := "Video liked!"

  /** JavaScript's a || b on strings: the empty text is falsy. */
  function Or(a: string, b: string): string {
    if a != "" then a else b
  }

  /** A JSON field that may be missing, read as text (undefined is falsy). */
  function FieldText(f: Option<string>): string {
    match f
    case None => ""
    case Some(t) => t
  }

  /** The error shown when a generate request fails: the thrown Error's
      message, which for a non-2xx response is the server's error field or
      the fixed fallback, and the catch block's own fallback for an empty
      message. */
  function FailureText(o: Outcome<Batch>): (text: string)
    requires !o.Ok?
    ensures text != ""
    ensures o.HttpError? && o.error.Some? && o.error.value != "" ==> text == o.error.value
    ensures o.HttpError? && (o.error.None? || o.error.value == "") ==> text == GenerateFailed
    ensures o.TransportError? && o.message != "" ==> text == o.message
    ensures o.TransportError? && o.message == "" ==> text == GenerateRetry
  {
    var thrown := if o.HttpError? then Or(FieldText(o.error), GenerateFailed) else o.message;
    Or(thrown, GenerateRetry)
  }

  // ---------------------------------------------------------------------
  // The controller's state and its transitions

  /** Everything the controller holds or writes. Page elements that no
      handler has written yet are None: they show what the page template
      rendered. The last two fields are not held by the controller: the
      requests it has sent, and how many history fetches are still out. */
  datatype HubState = HubState(
    selected: seq<string>,
    generating: bool,
    history: seq<HistoryEntry>,
    input: string,
    button: Button,
    dropdown: Option<Dropdown>,
    counter: Option<Counter>,
    loading: Option<bool>,
    resultsShown: Option<bool>,
    cards: Option<seq<VideoResult>>,
    historyView: Option<HistoryView>,
    notices: seq<Notice>,
    calls: seq<Call>,
    historyLoads: nat)

  /** What stays true between events: the selection has no repetitions, the
      button, dropdown and counter agree with the state they show, and the
      loading indicator is up exactly while a generate request is in flight. */
  predicate Consistent(s: HubState) {
    && Distinct(s.selected)
    && s.button == ButtonFor(s.input, |s.selected|, s.generating)
    && (s.dropdown.Some? ==> s.dropdown.value == DropdownFor(|s.selected|))
    && (s.dropdown.None? ==> s.selected == [])
    && (s.counter.Some? ==> s.counter.value == CounterFor(s.input))
    && (s.loading == Some(true) <==> s.generating)
    && (s.generating ==> s.resultsShown == Some(false))
  }

  /** The fresh controller: empty selection and history, not generating, a
      history fetch sent and the button set from the template's prompt text. */
  function Initial(input: string): (s: HubState)
    ensures Consistent(s)
    ensures !s.generating && s.selected == [] && s.history == [] && s.calls == [HistoryCall]
    ensures s.button.text == IdleLabel && s.button.disabled
  {
    HubState([], false, [], input, ButtonFor(input, 0, false),
             None, None, None, None, None, None, [], [HistoryCall], 1)
  }

  /** handleModelSelection: a checkbox was ticked or cleared. */
  function Toggled(s: HubState, id: string, isSelected: bool): (r: HubState)
    ensures Consistent(s) ==> Consistent(r)
    ensures Elements(r.selected) ==
      if isSelected then Elements(s.selected) + {id} else Elements(s.selected) - {id}
    ensures isSelected ==> |s.selected| <= |r.selected| && r.selected[..|s.selected|] == s.selected
    ensures !isSelected && id !in s.selected ==> r.selected == s.selected
    ensures !isSelected && Distinct(s.selected) ==>
      forall k :: 0 <= k < |s.selected| && s.selected[k] == id ==>
        r.selected == s.selected[..k] + s.selected[k + 1..]
    ensures r.dropdown == Some(DropdownFor(|r.selected|))
    ensures r == s.(selected := r.selected, button := r.button, dropdown := r.dropdown)
  {
    var selected := if isSelected then SetAdd(s.selected, id) else SetDelete(s.selected, id);
    s.(selected := selected,
       button := ButtonFor(s.input, |selected|, s.generating),
       dropdown := Some(DropdownFor(|selected|)))
  }

  /** handlePromptInput: the prompt text changed. */
  function Typed(s: HubState, value: string): (r: HubState)
    ensures Consistent(s) ==> Consistent(r)
    ensures r.counter.Some? && r.counter.value.tier == CounterTier(|value|)
    ensures r == s.(input := value, counter := r.counter, button := r.button)
  {
    s.(input := value, counter := Some(CounterFor(value)),
       button := ButtonFor(value, |s.selected|, s.generating))
  }

  /** generateVideos up to its request: does nothing while a request is in
      flight or nothing is selected, complains about a blank prompt, and
      otherwise marks the request in flight and sends the trimmed prompt with
      the selection in insertion order. */
  function Submitted(s: HubState): (r: HubState)
    ensures Consistent(s) ==> Consistent(r)
    ensures s.generating || s.selected == [] ==> r == s
    ensures !s.generating && s.selected != [] && AllSpace(JavaScript, s.input) ==>
      r == s.(notices := s.notices + [Failure(EnterPrompt)])
    ensures |r.calls| > |s.calls| <==> CanGenerate(s.input, |s.selected|, s.generating)
    ensures |r.calls| > |s.calls| ==>
      && r.calls == s.calls + [GenerateCall(Trim(JavaScript, s.input), s.selected)]
      && r.generating && r.loading == Some(true) && r.resultsShown == Some(false)
      && r.button == Button(true, BusyLabel)
      && r == s.(generating := true, button := r.button, loading := r.loading,
                 resultsShown := r.resultsShown, calls := r.calls)
  {
    TrimEmptyIffBlank(JavaScript, s.input);
    if s.generating || |s.selected| == 0 then s
    else
      var prompt := Trim(JavaScript, s.input);
      if prompt == [] then s.(notices := s.notices + [Failure(EnterPrompt)])
      else s.(generating := true,
              button := ButtonFor(s.input, |s.selected|, true),
              loading := Some(true),
              resultsShown := Some(false),
              calls := s.calls + [GenerateCall(prompt, s.selected)])
  }

  /** loadHistory up to its request. */
  function HistoryRequested(s: HubState): HubState {
    s.(calls := s.calls + [HistoryCall], historyLoads := s.historyLoads + 1)
  }

  /** The rest of generateVideos once the request settles: on success the
      cards are drawn in the order returned, a history refresh is sent and the
      server's message is shown; on failure the error is shown; either way the
      in-flight flag is cleared and the button and loading indicator reset. */
  function Settled(s: HubState, o: Outcome<Batch>): (r: HubState)
    ensures Consistent(s) ==> Consistent(r)
    ensures !r.generating && r.loading == Some(false)
    ensures r.button == ButtonFor(s.input, |s.selected|, false)
    ensures r.selected == s.selected && r.input == s.input && r.history == s.history
    ensures r.dropdown == s.dropdown && r.counter == s.counter && r.historyView == s.historyView
    ensures o.Ok? ==>
      && r.cards == Some(o.value.results) && r.resultsShown == Some(true)
      && r.calls == s.calls + [HistoryCall] && r.historyLoads == s.historyLoads + 1
      && r.notices == s.notices + [Success(o.value.message)]
    ensures !o.Ok? ==>
      && r.notices == s.notices + [Failure(FailureText(o))]
      && r.cards == s.cards && r.resultsShown == s.resultsShown
      && r.calls == s.calls && r.historyLoads == s.historyLoads
  {
    var shown := match o
      case Ok(batch) =>
        HistoryRequested(s.(cards := Some(batch.results), resultsShown := Some(true)))
          .(notices := s.notices + [Success(batch.message)])
      case _ => s.(notices := s.notices + [Failure(FailureText(o))]);
    shown.(generating := false, button := ButtonFor(s.input, |s.selected|, false), loading := Some(false))
  }

  /** The rest of loadHistory once its request settles: a history list
      replaces the held one wholesale and is drawn; anything else is logged
      and leaves both the list and the panel as they were. */
  function HistoryReceived(s: HubState, o: Outcome<seq<HistoryEntry>>,
                           ageOf: Timestamp -> Option<int>, dateOf: Timestamp -> string): (r: HubState)
    requires s.historyLoads > 0
    ensures Consistent(s) ==> Consistent(r)
    ensures o.Ok? ==> r.history == o.value && r.historyView == Some(RenderHistory(o.value, ageOf, dateOf))
    ensures !o.Ok? ==> r.history == s.history && r.historyView == s.historyView
    ensures r == s.(history := r.history, historyView := r.historyView, historyLoads := s.historyLoads - 1)
  {
    var s' := s.(historyLoads := s.historyLoads - 1);
    match o
    case Ok(entries) => s'.(history := entries, historyView := Some(RenderHistory(entries, ageOf, dateOf)))
    case _ => s'
  }

  /** likeVideo: sends the like, then shows a fixed confirmation or a fixed
      error, whatever error the server gave. */
  function LikeSettled(s: HubState, videoId: string, o: Outcome<()>): (r: HubState)
    ensures Consistent(s) ==> Consistent(r)
    ensures r.calls == s.calls + [LikeCall(videoId)]
    ensures r.notices == s.notices + [if o.Ok? then Success(Liked) else Failure(LikeFailed)]
    ensures r == s.(calls := r.calls, notices := r.notices)
  {
    var shown := if o.Ok? then Success(Liked) else Failure(LikeFailed);
    s.(calls := s.calls + [LikeCall(videoId)], notices := s.notices + [shown])
  }

  // ---------------------------------------------------------------------
  // Properties across events

  /** The button is enabled exactly when a click would send a request. */
  lemma ButtonMatchesSubmit(s: HubState)
    requires Consistent(s)
    ensures !s.button.disabled <==> |Submitted(s).calls| > |s.calls|
  {
  }

  /** A second click while a request is in flight does nothing: at most one
      generate request is out at a time. */
  lemma AtMostOneInFlight(s: HubState)
    requires Consistent(s) && CanGenerate(s.input, |s.selected|, s.generating)
    ensures Submitted(Submitted(s)) == Submitted(s)
    ensures Submitted(s).button.disabled
  {
  }

  /** Every attempt that reaches its request ends idle, whatever the
      outcome: the flag cleared, the indicator hidden and the button back to
      what the prompt and selection allow. */
  lemma AttemptEndsIdle(s: HubState, o: Outcome<Batch>)
    requires Consistent(s) && CanGenerate(s.input, |s.selected|, s.generating)
    ensures var r := Settled(Submitted(s), o);
      && Consistent(r) && !r.generating && r.loading == Some(false)
      && r.button == Button(false, IdleLabel)
      && |r.calls| >= |s.calls| + 1
      && r.calls[|s.calls|] == GenerateCall(Trim(JavaScript, s.input), s.selected)
  {
    var m := Submitted(s);
    assert m.calls == s.calls + [GenerateCall(Trim(JavaScript, s.input), s.selected)];
  }

  /** Ticking a box twice is ticking it once, and likewise for clearing. */
  lemma ToggleIdempotent(s: HubState, id: string, isSelected: bool)
    ensures Toggled(Toggled(s, id, isSelected), id, isSelected) == Toggled(s, id, isSelected)
  {
    if !isSelected {
      SetDeleteIdempotent(s.selected, id);
    }
  }

  /** The dropdown shows how many distinct models are selected. */
  lemma DropdownCountsSelection(s: HubState)
    requires Consistent(s) && s.dropdown.Some?
    ensures s.dropdown.value == DropdownFor(|Elements(s.selected)|)
  {
    DistinctSize(s.selected);
  }

  /** A failed like shows the same text whatever the server said. */
  lemma LikeIgnoresServerError(s: HubState, videoId: string, e1: Option<string>, e2: Option<string>)
    ensures LikeSettled(s, videoId, HttpError(e1)) == LikeSettled(s, videoId, HttpError(e2))
  {
  }

  // ---------------------------------------------------------------------
  // The controller object

  class Hub {
    var selectedModels: seq<string>
    var isGenerating: bool
    var promptHistory: seq<HistoryEntry>
    /** The prompt textarea's text. */
    var promptInput: string
    var generateButton: Button
    var dropdownButton: Option<Dropdown>
    var charCount: Option<Counter>
    var loadingState: Option<bool>
    var resultsSection: Option<bool>
    var videoGrid: Option<seq<VideoResult>>
    var historyList: Option<HistoryView>
    var notices: seq<Notice>
    ghost var calls: seq<Call>
    ghost var historyLoads: nat

    ghost function State(): HubState
      reads this
    {
      HubState(selectedModels, isGenerating, promptHistory, promptInput, generateButton,
               dropdownButton, charCount, loadingState, resultsSection, videoGrid,
               historyList, notices, calls, historyLoads)
    }

    ghost predicate Valid()
      reads this
    {
      Consistent(State())
    }

    /** The constructor and init(): fields set, history fetch sent, button
        set. initialInput is the textarea's text when the page loads. */
    constructor (initialInput: string)
      ensures State() == Initial(initialInput) && Valid()
    {
      selectedModels := [];
      promptHistory := [];
      isGenerating := false;
      promptInput := initialInput;
      generateButton := Button(false, IdleLabel);
      dropdownButton := None;
      charCount := None;
      loadingState := None;
      resultsSection := None;
      videoGrid := None;
      historyList := None;
      notices := [];
      calls := [];
      historyLoads := 0;
      new;
      LoadHistory();
      UpdateGenerateButtonState();
    }

    method HandleModelSelection(modelId: string, isSelected: bool)
      requires Valid()
      modifies this
      ensures State() == Toggled(old(State()), modelId, isSelected)
      ensures Valid()
    {
      if isSelected {
        selectedModels := SetAdd(selectedModels, modelId);
      } else {
        selectedModels := SetDelete(selectedModels, modelId);
      }
      UpdateGenerateButtonState();
      UpdateDropdownButton();
    }

    method HandlePromptInput(prompt: string)
      requires Valid()
      modifies this
      ensures State() == Typed(old(State()), prompt)
      ensures Valid()
    {
      promptInput := prompt;
      var length := |prompt|;
      var tier: Tier;
      if length > DangerAbove {
        tier := Danger;
      } else if length > WarningAbove {
        tier := Warning;
      } else {
        tier := Secondary;
      }
      charCount := Some(Counter(NatToString(length), tier));
      ghost var typed := State();
      assert typed == old(State()).(input := prompt, counter := Some(CounterFor(prompt)));
      UpdateGenerateButtonState();
      assert State() == typed.(button := ButtonFor(prompt, |selectedModels|, isGenerating));
    }

    method UpdateGenerateButtonState()
      modifies this
      ensures State() == old(State()).(button := ButtonFor(promptInput, |selectedModels|, isGenerating))
    {
      var isValid := CanGenerate(promptInput, |selectedModels|, isGenerating);
      var caption := if isGenerating then BusyLabel else IdleLabel;
      generateButton := Button(!isValid, caption);
    }

    method UpdateDropdownButton()
      modifies this
      ensures State() == old(State()).(dropdown := Some(DropdownFor(|selectedModels|)))
    {
      var selectedCount := |selectedModels|;
      if selectedCount == 0 {
        dropdownButton := Some(Dropdown(NoModelsLabel, false));
      } else {
        dropdownButton := Some(Dropdown("Models (" + NatToString(selectedCount) + ")", true));
      }
    }

    /** generateVideos up to the point where it awaits the server. */
    method GenerateVideos()
      requires Valid()
      modifies this
      ensures State() == Submitted(old(State()))
      ensures Valid()
    {
      if isGenerating || |selectedModels| == 0 {
        return;
      }
      var prompt := Trim(JavaScript, promptInput);
      if prompt == [] {
        notices := notices + [Failure(EnterPrompt)];
        return;
      }
      SetGenerating(true);
      ShowLoading(prompt);
    }

    /** The in-flight flag set or cleared, and the button redrawn to match. */
    method SetGenerating(generating: bool)
      modifies this
      ensures State() == old(State()).(generating := generating,
                                       button := ButtonFor(promptInput, |selectedModels|, generating))
    {
      isGenerating := generating;
      UpdateGenerateButtonState();
    }

    /** The loading indicator shown, the results hidden and the request sent. */
    method ShowLoading(prompt: string)
      modifies this
      ensures State() == old(State()).(loading := Some(true), resultsShown := Some(false),
                                       calls := old(calls) + [GenerateCall(prompt, selectedModels)])
    {
      loadingState := Some(true);
      resultsSection := Some(false);
      calls := calls + [GenerateCall(prompt, selectedModels)];
    }

    /** generateVideos from the moment its request settles: the try, catch
        and finally blocks. */
    method FinishGeneration(outcome: Outcome<Batch>)
      requires Valid()
      modifies this
      ensures State() == Settled(old(State()), outcome)
      ensures Valid()
    {
      var caught: Option<string> := None;
      match outcome {
        case Ok(batch) =>
          ShowBatch(batch);
        case HttpError(error) =>
          caught := Some(Or(FieldText(error), GenerateFailed));
        case TransportError(message) =>
          caught := Some(message);
      }
      if caught.Some? {
        notices := notices + [Failure(Or(caught.value, GenerateRetry))];
      }
      SetGenerating(false);
      loadingState := Some(false);
    }

    /** The try block after a successful response: the cards drawn, the
        history refreshed and the server's message shown. */
    method ShowBatch(batch: Batch)
      modifies this
      ensures State() == HistoryRequested(old(State()).(cards := Some(batch.results),
        resultsShown := Some(true))).(notices := old(notices) + [Success(batch.message)])
    {
      videoGrid := Some(batch.results);
      resultsSection := Some(true);
      LoadHistory();
      notices := notices + [Success(batch.message)];
    }

    /** loadHistory up to the point where it awaits the server. */
    method LoadHistory()
      modifies this
      ensures State() == HistoryRequested(old(State()))
    {
      calls := calls + [HistoryCall];
      historyLoads := historyLoads + 1;
    }

    /** loadHistory from the moment one of its requests settles. */
    method ReceiveHistory(outcome: Outcome<seq<HistoryEntry>>,
                          ageOf: Timestamp -> Option<int>, dateOf: Timestamp -> string)
      requires Valid() && historyLoads > 0
      modifies this
      ensures State() == HistoryReceived(old(State()), outcome, ageOf, dateOf)
      ensures Valid()
    {
      historyLoads := historyLoads - 1;
      if outcome.Ok? {
        ShowHistory(outcome.value, ageOf, dateOf);
      }
    }

    /** The try block after the history arrives: the list replaced and drawn. */
    method ShowHistory(history: seq<HistoryEntry>,
                       ageOf: Timestamp -> Option<int>, dateOf: Timestamp -> string)
      modifies this
      ensures State() == old(State()).(history := history,
                                       historyView := Some(RenderHistory(history, ageOf, dateOf)))
    {
      promptHistory := history;
      DisplayHistory(ageOf, dateOf);
    }

    method DisplayHistory(ageOf: Timestamp -> Option<int>, dateOf: Timestamp -> string)
      modifies this
      ensures State() == old(State()).(historyView := Some(RenderHistory(promptHistory, ageOf, dateOf)))
    {
      if |promptHistory| == 0 {
        historyList := Some(NoRecentPrompts);
        return;
      }
      var items: seq<HistoryItem> := [];
      for i := 0 to |promptHistory|
        invariant |items| == i
        invariant forall k :: 0 <= k < i ==> items[k] == RenderEntry(promptHistory[k], ageOf, dateOf)
      {
        items := items + [RenderEntry(promptHistory[i], ageOf, dateOf)];
      }
      assert Items(items) == RenderHistory(promptHistory, ageOf, dateOf);
      historyList := Some(Items(items));
    }

    /** likeVideo, with the like request's outcome. */
    method LikeVideo(modelId: string, outcome: Outcome<()>)
      requires Valid()
      modifies this
      ensures State() == LikeSettled(old(State()), modelId, outcome)
      ensures Valid()
    {
      calls := calls + [LikeCall(modelId)];
      if outcome.Ok? {
        notices := notices + [Success(Liked)];
      } else {
        notices := notices + [Failure(LikeFailed)];
      }
    }
  }
}
