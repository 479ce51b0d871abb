/** The chat-completion request handler: prompt size limit, the run's exit
    status, removal of the generator's statistics footer, and the
    OpenAI-style response envelope. */
module Handler {
  import opened Strings
  import opened Assembly
  import opened Launch

  const MaxPromptSize := 600000
  const DefaultMaxTokens := 10000
  const FooterSeparator := "=========="
  const ProcessFailedMessage := "Kimi K2 process failed"

  /** The request body: `messages` and `max_tokens`, either of which may be
      missing. */
  datatype Request = Request(messages: Option<seq<Message>>, maxTokens: Option<int>)

  /** What running the launcher produced: the process ran to completion with
      an exit status and its captured output, or starting or reading it
      raised an exception with the given message. */
  datatype RunResult =
    | Exited(returncode: int, stdout: string, stderr: string)
    | Raised(message: string)

  datatype Usage = Usage(promptTokens: nat, completionTokens: nat, totalTokens: nat)
  datatype ReplyMessage = ReplyMessage(role: string, content: string)
  datatype Choice = Choice(index: nat, message: ReplyMessage, finishReason: string)
  datatype ChatCompletion = ChatCompletion(
    id: string, kind: string, created: int, model: string,
    choices: seq<Choice>, usage: Usage)

  /** The HTTP reply: an error body with its status code, or a completion
      (status 200). */
  datatype Reply = ErrorReply(status: int, error: string) | Completion(body: ChatCompletion) {
    function Status(): int {
      if Completion? then 200 else status
    }
  }

  function Messages(req: Request): seq<Message> {
    req.messages.GetOr([])
  }

  function MaxTokens(req: Request): int {
    req.maxTokens.GetOr(DefaultMaxTokens)
  }

  function TooLargeMessage(len: nat): string {
    "Prompt too large: " + IntToDecimal(len) + " chars (max: " + IntToDecimal(MaxPromptSize)
    + "). Please reduce context or history."
  }

  /** The refusal names the prompt's length right after its fixed opening,
      as decimal text that reads back as that length. */
  lemma TooLargeMessageReportsLength(len: nat)
    ensures var m, d := TooLargeMessage(len), IntToDecimal(len);
      && 18 + |d| <= |m|
      && m[..18] == "Prompt too large: "
      && ParseInt(m[18..18 + |d|]) == Some(len)
  {
    var opening: string := "Prompt too large: ";
    var d := IntToDecimal(len);
    var rest := " chars (max: " + IntToDecimal(MaxPromptSize) + "). Please reduce context or history.";
    var m := opening + d + rest;
    assert TooLargeMessage(len) == m;
    assert m[..18] == opening;
    assert m[18..18 + |d|] == d;
    IntToDecimalRoundTrip(len);
  }

  /** The error text of a failed run: its stripped stderr, or a fixed
      message when that is empty. It is never empty. */
  function FailureMessage(stderr: string): (m: string)
    ensures m != ""
    ensures Strip(stderr) != "" ==> m == Strip(stderr)
    ensures Strip(stderr) == "" ==> m == ProcessFailedMessage
  {
    var s := Strip(stderr);
    if s != "" then s else ProcessFailedMessage
  }

  /** The reply content made from the captured output. Without the separator
      the output is passed on exactly as produced; with it, the footer from
      the first separator on is dropped and the rest is stripped, so the
      result has no surrounding whitespace and no separator left in it. */
  function StripFooter(stdout: string): (text: string)
    ensures !Contains(stdout, FooterSeparator) ==> text == stdout
    ensures Contains(stdout, FooterSeparator) ==> Trimmed(text) && !Contains(text, FooterSeparator)
  {
    if Contains(stdout, FooterSeparator) then
      var head := BeforeFirst(stdout, FooterSeparator);
      var text := Strip(head);
      var i := LeadingSpaces(head);
      forall j ensures !OccursAt(text, FooterSeparator, j) {
        if OccursAt(text, FooterSeparator, j) {
          OccursInSlice(head, i, i + |text|, FooterSeparator, j);
        }
      }
      text
    else
      stdout
  }

  /** With the separator first found at index `i`, the content is exactly
      the stripped text in front of it. */
  lemma StripFooterKeepsHead(stdout: string, i: nat)
    requires OccursAt(stdout, FooterSeparator, i)
    requires forall j :: 0 <= j < i ==> !OccursAt(stdout, FooterSeparator, j)
    ensures StripFooter(stdout) == Strip(stdout[..i])
  {
    assert Contains(stdout, FooterSeparator);
    var head := BeforeFirst(stdout, FooterSeparator);
    assert |head| == i;
  }

  /** Footer removal is idempotent: applied to its own result it changes
      nothing more. */
  lemma StripFooterIdempotent(stdout: string)
    ensures StripFooter(StripFooter(stdout)) == StripFooter(stdout)
  {
  }

  /** In the generator's usual layout the first separator comes right after
      the text and its line break, provided the text holds no separator
      itself. Shorter runs of `=` in the text do not matter: a window that
      reaches the line break cannot be ten `=`. */
  lemma SeparatorAfterText(text: string, stats: string)
    requires !Contains(text, FooterSeparator)
    ensures var s := text + "\n" + FooterSeparator + stats;
      && OccursAt(s, FooterSeparator, |text| + 1)
      && (forall j :: 0 <= j < |text| + 1 ==> !OccursAt(s, FooterSeparator, j))
  {
    var head: string := text + "\n";
    var s := head + FooterSeparator + stats;
    assert s[|head|..|head| + 10] == FooterSeparator;
    forall j | 0 <= j < |head| ensures !OccursAt(s, FooterSeparator, j) {
      if j + 10 <= |text| {
        assert s[j..j + 10] == text[j..j + 10];
        assert !OccursAt(text, FooterSeparator, j);
      } else if j + 10 <= |s| {
        assert s[j..j + 10][|text| - j] == s[|text|] == '\n';
      }
    }
  }

  /** The generator's usual layout: the text, a line break, the separator
      and the statistics. When the text holds no separator and has no
      surrounding whitespace, the content is exactly that text, including
      any shorter runs of `=` inside it. */
  lemma StripFooterAfterText(text: string, stats: string)
    requires Trimmed(text)
    requires !Contains(text, FooterSeparator)
    ensures StripFooter(text + "\n" + FooterSeparator + stats) == text
  {
    var head, tail := text + "\n", FooterSeparator + stats;
    var s := head + tail;
    assert s == text + "\n" + FooterSeparator + stats;
    SeparatorAfterText(text, stats);
    StripFooterKeepsHead(s, |head|);
    assert s[..|head|] == head;
    StripLineBreak(text);
  }

  /** A typical generator output: text, the separator, then the statistics. */
  lemma StripFooterExample()
    ensures StripFooter("Hello world" + "\n" + FooterSeparator + "\nPrompt: 5 tokens\n") == "Hello world"
  {
    var text: string := "Hello world";
    assert text[0] == 'H' && text[|text| - 1] == 'd';
    PrintableNotSpace('H');
    PrintableNotSpace('d');
    forall j | 0 <= j <= |text| ensures !OccursAt(text, FooterSeparator, j) {
      assert j + 10 <= |text| ==> text[j..j + 10][0] == text[j] != '=';
    }
    StripFooterAfterText(text, "\nPrompt: 5 tokens\n");
  }

  /** The fixed-shape success envelope. */
  function Envelope(content: string): ChatCompletion {
    ChatCompletion(
      "chatcmpl-kimi-k2", "chat.completion", 1234567890, "kimi-k2-local",
      [Choice(0, ReplyMessage("assistant", content), "stop")],
      Usage(0, 0, 0))
  }

  /** The whole handler. `run` stands for executing a launch specification
      and collecting its result; it is consulted only when the prompt is
      within the size limit. */
  function Handle(req: Request, cfg: Config, run: LaunchSpec -> RunResult): (reply: Reply)
    ensures reply.Status() in {200, 400, 500}
    ensures reply.Status() == 400 <==> |Prompt(Messages(req))| > MaxPromptSize
    ensures reply.Completion? <==>
      && |Prompt(Messages(req))| <= MaxPromptSize
      && var result := run(BuildLaunchSpec(cfg, Prompt(Messages(req)), MaxTokens(req)));
         result.Exited? && result.returncode == 0
  {
    var prompt := Prompt(Messages(req));
    if |prompt| > MaxPromptSize then
      ErrorReply(400, TooLargeMessage(|prompt|))
    else
      match run(BuildLaunchSpec(cfg, prompt, MaxTokens(req)))
      case Raised(e) => ErrorReply(500, e)
      case Exited(code, out, err) =>
        if code != 0 then ErrorReply(500, FailureMessage(err))
        else Completion(Envelope(StripFooter(out)))
  }

  /** An oversized prompt is refused before anything is run: the reply is
      the same whatever the run would have produced. A prompt of exactly the
      limit is not refused. */
  lemma PromptSizeLimit(req: Request, cfg: Config, run1: LaunchSpec -> RunResult, run2: LaunchSpec -> RunResult)
    ensures var n := |Prompt(Messages(req))|;
      n > MaxPromptSize ==>
        Handle(req, cfg, run1) == Handle(req, cfg, run2) == ErrorReply(400, TooLargeMessage(n))
    ensures |Prompt(Messages(req))| == MaxPromptSize ==> Handle(req, cfg, run1).Status() != 400
  {
  }

  /** The run is given the assembled prompt and the requested token budget
      (10000 when the request names none). */
  lemma RunSeesPrompt(req: Request, cfg: Config)
    ensures var argv := BuildLaunchSpec(cfg, Prompt(Messages(req)), MaxTokens(req)).argv;
      var k := |LauncherPrefix(cfg)|;
      && |argv| == k + 9
      && argv[k + 6] == Prompt(Messages(req))
      && ParseInt(argv[k + 8]) == Some(if req.maxTokens.Some? then req.maxTokens.value else 10000)
  {
    CommandLayout(cfg, Prompt(Messages(req)), MaxTokens(req));
  }

  /** A non-zero exit status is always a 500 carrying the stripped stderr,
      or the fixed message when stderr is blank; never a completion. */
  lemma FailedRunIsServerError(req: Request, cfg: Config, run: LaunchSpec -> RunResult)
    requires |Prompt(Messages(req))| <= MaxPromptSize
    requires var result := run(BuildLaunchSpec(cfg, Prompt(Messages(req)), MaxTokens(req)));
      result.Exited? && result.returncode != 0
    ensures var result := run(BuildLaunchSpec(cfg, Prompt(Messages(req)), MaxTokens(req)));
      Handle(req, cfg, run) == ErrorReply(500, FailureMessage(result.stderr))
    ensures Handle(req, cfg, run).error != ""
  {
  }

  /** An exception while running becomes a 500 carrying its message. */
  lemma RaisedIsServerError(req: Request, cfg: Config, run: LaunchSpec -> RunResult)
    requires |Prompt(Messages(req))| <= MaxPromptSize
    requires run(BuildLaunchSpec(cfg, Prompt(Messages(req)), MaxTokens(req))).Raised?
    ensures Handle(req, cfg, run)
      == ErrorReply(500, run(BuildLaunchSpec(cfg, Prompt(Messages(req)), MaxTokens(req))).message)
  {
  }

  /** Every completion has one choice, from the assistant, finished with
      "stop", whose content is the run's output without its footer, and
      reports zero tokens throughout. */
  lemma CompletionShape(req: Request, cfg: Config, run: LaunchSpec -> RunResult)
    requires Handle(req, cfg, run).Completion?
    ensures var body := Handle(req, cfg, run).body;
      var result := run(BuildLaunchSpec(cfg, Prompt(Messages(req)), MaxTokens(req)));
      && |body.choices| == 1
      && body.choices[0].index == 0
      && body.choices[0].message.role == "assistant"
      && body.choices[0].finishReason == "stop"
      && body.choices[0].message.content == StripFooter(result.stdout)
      && body.usage == Usage(0, 0, 0)
      && body.kind == "chat.completion"
      && body.id == "chatcmpl-kimi-k2"
      && body.created == 1234567890
      && body.model == "kimi-k2-local"
  {
  }

  /** Silence from a successful run is not an error: it is a completion
      with empty content. */
  lemma EmptyOutputIsEmptyCompletion(req: Request, cfg: Config, run: LaunchSpec -> RunResult)
    requires |Prompt(Messages(req))| <= MaxPromptSize
    requires var result := run(BuildLaunchSpec(cfg, Prompt(Messages(req)), MaxTokens(req)));
      result.Exited? && result.returncode == 0 && result.stdout == ""
    ensures Handle(req, cfg, run).Completion?
    ensures Handle(req, cfg, run).body.choices[0].message.content == ""
  {
    assert !OccursAt("", FooterSeparator, 0);
  }

  /** The handler as the server runs it: the assembly loop, the size check,
      one run, and the reply built from its result. */
  method ChatCompletions(req: Request, cfg: Config, run: LaunchSpec -> RunResult) returns (reply: Reply)
    ensures reply == Handle(req, cfg, run)
  {
    var messages := Messages(req);
    var maxTokens := MaxTokens(req);
    var prompt := AssemblePrompt(messages);
    if |prompt| > MaxPromptSize {
      return ErrorReply(400, TooLargeMessage(|prompt|));
    }
    var spec := BuildLaunchSpec(cfg, prompt, maxTokens);
    var result := run(spec);
    if result.Raised? {
      return ErrorReply(500, result.message);
    }
    if result.returncode != 0 {
      return ErrorReply(500, FailureMessage(result.stderr));
    }
    var text := StripFooter(result.stdout);
    reply := Completion(Envelope(text));
  }
}
