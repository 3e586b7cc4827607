/** The Flask server's generate endpoint: request validation, one mock result
    per selected model, and the bounded most-recent-first prompt history that
    the history endpoint serves. */
module Backend {
  import opened Text
  import opened Api

  /** The fixed model table, keyed by model id, reduced to what the generate
      endpoint reads from it: each model's display name. */
  const Models: map<string, string> := map[
    "pika" := "Pika Labs",
    "runway" := "RunwayML",
    "sora" := "Sora"
  ]

  /** How many history entries the server keeps. */
  const MaxHistory: nat := 10

  /** The mock videos handed out in turn. */
  const Placeholders: seq<string> := ["placeholder1.mp4", "placeholder2.mp4", "placeholder3.mp4"]
  const VideoDir: string := "/static/videos/"

  const PromptRequired: string := "Prompt is required"
  const ModelRequired: string := "At least one model must be selected"
  const InvalidPrefix: string := "Invalid models: "

  /** The JSON body of a generate request; a key may be missing. */
  datatype GenerateRequest = GenerateRequest(prompt: Option<string>, models: Option<seq<string>>)

  /** The generate endpoint's answer: 200 with the results and a message, or
      an error status with an error text. */
  datatype GenerateResponse =
    | Generated(results: seq<VideoResult>, message: string)
    | Rejected(status: nat, error: string)

  /** data.get('prompt', ''): a missing prompt reads as the empty text. */
  function PromptOf(req: GenerateRequest): string {
    match req.prompt
    case None => ""
    case Some(p) => p
  }

  /** data.get('models', []): a missing model list reads as the empty list. */
  function ModelsOf(req: GenerateRequest): seq<string> {
    match req.models
    case None => []
    case Some(ms) => ms
  }

  predicate AllKnown(ids: seq<string>) {
    forall id :: id in ids ==> id in Models
  }

  /** The requested ids that are not among the known ones, in request order
      (the list comprehension over the request, with the model table's keys
      as the known ids). */
  function Unknown(ids: seq<string>, known: set<string>): (bad: seq<string>)
    ensures forall x :: x in bad <==> x in ids && x !in known
    ensures |bad| <= |ids|
  {
    if ids == [] then []
    else (if ids[0] in known then [] else [ids[0]]) + Unknown(ids[1..], known)
  }

  /** Filtering respects concatenation, so the invalid ids keep the order in
      which the request lists them. */
  lemma {:induction false} UnknownAppend(a: seq<string>, b: seq<string>, known: set<string>)
    ensures Unknown(a + b, known) == Unknown(a, known) + Unknown(b, known)
  {
    if a != [] {
      var head := if a[0] in known then [] else [a[0]];
      assert (a + b)[0] == a[0] && (a + b)[1..] == a[1..] + b;
      UnknownAppend(a[1..], b, known);
      assert Unknown(a + b, known) == head + (Unknown(a[1..], known) + Unknown(b, known));
      assert Unknown(a, known) == head + Unknown(a[1..], known);
    } else {
      assert a + b == b;
    }
  }

  /** The message of a successful request. */
  function SuccessMessage(n: nat): string {
    "Generated " + NatToString(n) + " videos successfully"
  }

  /** The outcome of the three checks the endpoint makes before generating. */
  datatype Verdict = Accept(prompt: string, ids: seq<string>) | Refuse(error: string)

  /** The checks run in order: blank prompt, then empty model list, then
      unknown ids; the first that fails decides the error. */
  function Validate(req: GenerateRequest): (v: Verdict)
    ensures v.Accept? <==>
      !AllSpace(Python, PromptOf(req)) && ModelsOf(req) != [] && AllKnown(ModelsOf(req))
    ensures v.Accept? ==>
      v.prompt == Trim(Python, PromptOf(req)) && v.prompt != [] && v.ids == ModelsOf(req)
    ensures AllSpace(Python, PromptOf(req)) ==> v == Refuse(PromptRequired)
    ensures !AllSpace(Python, PromptOf(req)) && ModelsOf(req) == [] ==> v == Refuse(ModelRequired)
    ensures !AllSpace(Python, PromptOf(req)) && ModelsOf(req) != [] && !AllKnown(ModelsOf(req)) ==>
      Unknown(ModelsOf(req), Models.Keys) != [] &&
      v == Refuse(InvalidPrefix + Join(Unknown(ModelsOf(req), Models.Keys), ", "))
  {
    TrimEmptyIffBlank(Python, PromptOf(req));
    var prompt := Trim(Python, PromptOf(req));
    var ids := ModelsOf(req);
    if prompt == [] then Refuse(PromptRequired)
    else if ids == [] then Refuse(ModelRequired)
    else
      var bad := Unknown(ids, Models.Keys);
      if bad != [] then
        assert bad[0] in ids && bad[0] !in Models;
        Refuse(InvalidPrefix + Join(bad, ", "))
      else Accept(prompt, ids)
  }

  /** The display names of the given ids, in the same order. */
  function DisplayNames(ids: seq<string>): (names: seq<string>)
    requires AllKnown(ids)
    ensures |names| == |ids|
    ensures forall i :: 0 <= i < |ids| ==> names[i] == Models[ids[i]]
  {
    if ids == [] then [] else [Models[ids[0]]] + DisplayNames(ids[1..])
  }

  /** What the result generated for model id at position i holds. */
  predicate ResultFor(r: VideoResult, prompt: string, id: string, i: nat, now: Timestamp)
    requires id in Models
  {
    && r.modelId == id
    && r.modelName == Models[id]
    && r.videoUrl == VideoDir + Placeholders[i % |Placeholders|]
    && r.prompt == prompt
    && r.generationTime == NatToString(2 + i) + "s"
    && r.timestamp == now
    && r.likes == 0
  }

  /** One result per requested id, in request order. */
  predicate DescribesRun(results: seq<VideoResult>, prompt: string, ids: seq<string>, now: Timestamp)
    requires AllKnown(ids)
  {
    |results| == |ids| &&
    forall i :: 0 <= i < |ids| ==> ResultFor(results[i], prompt, ids[i], i, now)
  }

  /** The generation loop: appends one mock result per selected model. */
  method BuildResults(prompt: string, ids: seq<string>, now: Timestamp)
    returns (results: seq<VideoResult>)
    requires AllKnown(ids)
    ensures DescribesRun(results, prompt, ids, now)
  {
    results := [];
    for i := 0 to |ids|
      invariant |results| == i
      invariant forall k :: 0 <= k < i ==> ResultFor(results[k], prompt, ids[k], k, now)
    {
      var modelName := Models[ids[i]];
      var videoFile := Placeholders[i % |Placeholders|];
      var result := VideoResult(ids[i], modelName, VideoDir + videoFile, prompt,
                                NatToString(2 + i) + "s", now, 0);
      results := results + [result];
    }
  }

  /** The generation time label of the i-th result reads back as 2 + i seconds. */
  lemma GenerationTimeReadsBack(results: seq<VideoResult>, prompt: string, ids: seq<string>,
                                now: Timestamp, i: nat)
    requires AllKnown(ids) && DescribesRun(results, prompt, ids, now) && i < |ids|
    ensures var t := results[i].generationTime;
      |t| > 1 && t[|t| - 1] == 's' && IsDigits(t[..|t| - 1]) && DecimalValue(t[..|t| - 1]) == 2 + i
  {
    var t := results[i].generationTime;
    assert t[..|t| - 1] == NatToString(2 + i);
    DecimalRoundTrip(2 + i);
  }

  /** The placeholder videos come round every three results. */
  lemma PlaceholdersCycle(results: seq<VideoResult>, prompt: string, ids: seq<string>,
                          now: Timestamp, i: nat)
    requires AllKnown(ids) && DescribesRun(results, prompt, ids, now) && i + 3 < |ids|
    ensures results[i + 3].videoUrl == results[i].videoUrl
  {
    assert (i + 3) % 3 == i % 3;
  }

  /** insert(0, entry) followed by pop() when the list has grown past the
      bound: the newest entry first, earlier ones in their old order, and at
      most the single oldest one dropped. */
  function Remember(history: seq<HistoryEntry>, entry: HistoryEntry): (h: seq<HistoryEntry>)
    ensures h != [] && h[0] == entry && |h| <= |history| + 1
    ensures h[1..] == history[..|h| - 1]
    ensures |history| <= MaxHistory ==> |h| == Min(|history| + 1, MaxHistory)
  {
    var grown := [entry] + history;
    if |grown| > MaxHistory then grown[..|grown| - 1] else grown
  }

  /** The history after a run of successful requests, oldest first. */
  function RememberAll(history: seq<HistoryEntry>, entries: seq<HistoryEntry>): seq<HistoryEntry>
    decreases |entries|
  {
    if entries == [] then history else RememberAll(Remember(history, entries[0]), entries[1..])
  }

  function Reversed<T>(s: seq<T>): (r: seq<T>)
    ensures |r| == |s|
  {
    if s == [] then [] else Reversed(s[1..]) + [s[0]]
  }

  /** Taking a prefix of B first changes nothing when the outer prefix does
      not reach past it. */
  lemma PrefixOfJoined<T>(a: seq<T>, b: seq<T>, n: nat, m: nat)
    requires n <= |b| && m <= |a| + n
    ensures (a + b[..n])[..m] == (a + b)[..m]
  {
    assert forall k :: 0 <= k < m ==> (a + b[..n])[k] == (a + b)[k];
  }

  /** After any run of successful requests the history holds the newest
      entries, newest first, followed by what was there before, cut to the
      bound. */
  lemma {:induction false} RememberAllKeepsNewest(history: seq<HistoryEntry>, entries: seq<HistoryEntry>)
    requires |history| <= MaxHistory
    ensures RememberAll(history, entries) ==
            (Reversed(entries) + history)[..Min(|entries| + |history|, MaxHistory)]
    decreases |entries|
  {
    if entries != [] {
      var e, rest := entries[0], entries[1..];
      var h1 := Remember(history, e);
      RememberAllKeepsNewest(h1, rest);
      var n := Min(|history| + 1, MaxHistory);
      assert h1 == ([e] + history)[..n];
      assert Reversed(entries) == Reversed(rest) + [e];
      PrefixOfJoined(Reversed(rest), [e] + history, n, Min(|rest| + n, MaxHistory));
      assert Reversed(rest) + ([e] + history) == Reversed(entries) + history;
    }
  }

  /** The server process: the in-memory prompt history. */
  class Server {
    var history: seq<HistoryEntry>

    ghost predicate Valid()
      reads this
    {
      |history| <= MaxHistory
    }

    constructor ()
      ensures Valid() && history == []
    {
      history := [];
    }

    /** POST /api/generate with the given JSON body; now stands for the
        server clock's reading. */
    method Generate(req: GenerateRequest, now: Timestamp) returns (resp: GenerateResponse)
      requires Valid()
      modifies this
      ensures Valid()
      ensures Validate(req).Refuse? ==>
        resp == Rejected(400, Validate(req).error) && history == old(history)
      ensures Validate(req).Accept? ==>
        var v := Validate(req);
        && resp.Generated?
        && DescribesRun(resp.results, v.prompt, v.ids, now)
        && resp.message == SuccessMessage(|v.ids|)
        && history == Remember(old(history), HistoryEntry(v.prompt, DisplayNames(v.ids), now, |v.ids|))
    {
      var prompt := Trim(Python, PromptOf(req));
      var selected := ModelsOf(req);
      ghost var v := Validate(req);
      if prompt == [] {
        assert v == Refuse(PromptRequired);
        return Rejected(400, PromptRequired);
      }
      if selected == [] {
        assert v == Refuse(ModelRequired);
        return Rejected(400, ModelRequired);
      }
      var invalid := Unknown(selected, Models.Keys);
      if invalid != [] {
        assert v == Refuse(InvalidPrefix + Join(invalid, ", "));
        return Rejected(400, InvalidPrefix + Join(invalid, ", "));
      }
      assert v == Accept(prompt, selected);
      resp := GenerateAccepted(prompt, selected, now);
    }

    /** The part of the generate endpoint past its checks: one result per
        model, the request remembered, and the success response. */
    method GenerateAccepted(prompt: string, selected: seq<string>, now: Timestamp)
      returns (resp: GenerateResponse)
      requires Valid() && AllKnown(selected)
      modifies this
      ensures Valid()
      ensures resp.Generated? && DescribesRun(resp.results, prompt, selected, now)
      ensures resp.message == SuccessMessage(|selected|)
      ensures history == Remember(old(history), HistoryEntry(prompt, DisplayNames(selected), now, |selected|))
    {
      var results := BuildResults(prompt, selected, now);
      var entry := HistoryEntry(prompt, DisplayNames(selected), now, |results|);
      history := [entry] + history;
      if |history| > MaxHistory {
        history := history[..|history| - 1];
      }
      resp := Generated(results, SuccessMessage(|results|));
    }

    /** GET /api/history: the stored list as it is. */
    method GetHistory() returns (h: seq<HistoryEntry>)
      requires Valid()
      ensures h == history && |h| <= MaxHistory
    {
      h := history;
    }
  }
}
