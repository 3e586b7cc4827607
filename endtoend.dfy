/** The browser and the server together: what becomes of the generate
    request the controller sends once the server checks it. */
module EndToEnd {
  import opened Text
  import opened Api
  import Backend
  import Client

  /** The request the controller sends after a click that its own checks let
      through, with ids the model table knows. */
  function SentRequest(s: Client.HubState): Backend.GenerateRequest {
    Backend.GenerateRequest(Some(Trim(JavaScript, s.input)), Some(s.selected))
  }

  /** A request the controller lets through with known model ids is accepted
      by the server exactly when its prompt is not all whitespace in Python's
      sense; then the server generates for the selection in the order the
      controller holds it, with the prompt trimmed once more by Python. */
  lemma SentRequestVerdict(s: Client.HubState)
    requires Client.CanGenerate(s.input, |s.selected|, s.generating)
    requires Backend.AllKnown(s.selected)
    ensures Client.Submitted(s).calls ==
      s.calls + [Client.GenerateCall(Trim(JavaScript, s.input), s.selected)]
    ensures var v := Backend.Validate(SentRequest(s));
      && (v.Accept? <==> !AllSpace(Python, Trim(JavaScript, s.input)))
      && (v.Accept? ==> v.ids == s.selected && v.prompt == Trim(Python, Trim(JavaScript, s.input)))
      && (v.Refuse? ==> v.error == Backend.PromptRequired)
  {
  }

  /** The two runtimes' checks differ: with a model selected, a prompt made
      of one character that only Python counts as whitespace (U+001C..U+001F
      or U+0085) enables the button and is sent as it is, yet it is all
      whitespace to the server, which refuses it with "Prompt is required"
      whatever models come with it. */
  lemma SentPromptRefusedAsBlank(c: char, models: seq<string>)
    requires '\U{001C}' <= c <= '\U{001F}' || c == '\U{0085}'
    ensures Client.CanGenerate([c], 1, false)
    ensures Trim(JavaScript, [c]) == [c]
    ensures AllSpace(Python, Trim(JavaScript, [c]))
    ensures Backend.Validate(Backend.GenerateRequest(Some([c]), Some(models)))
            == Backend.Refuse(Backend.PromptRequired)
  {
    assert !IsSpace(JavaScript, c) && IsSpace(Python, c);
    assert TrimStart(JavaScript, [c]) == [c];
    assert Trim(JavaScript, [c]) == [c];
    BlankPromptRefused([c], models);
  }

  /** The server's first check: a prompt that is all Python whitespace is
      refused, whatever models come with it. */
  lemma BlankPromptRefused(prompt: string, models: seq<string>)
    requires AllSpace(Python, prompt)
    ensures Backend.Validate(Backend.GenerateRequest(Some(prompt), Some(models)))
            == Backend.Refuse(Backend.PromptRequired)
  {
  }
}
