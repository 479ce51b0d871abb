/** Prompt assembly: the chat history is flattened into one role-labelled
    transcript, which is then stripped of surrounding whitespace. */
module Assembly {
  import opened Strings

  /** One entry of the request's `messages` list. A key that the client left
      out is `None`: `msg.get('role')` then yields no role at all, and
      `msg.get('content', '')` yields the empty text. */
  datatype Message = Message(role: Option<string>, content: Option<string>)

  function Text(m: Message): string {
    m.content.GetOr("")
  }

  /** The roles the assembler understands; every other message is dropped. */
  predicate KnownRole(m: Message) {
    m.role == Some("system") || m.role == Some("user") || m.role == Some("assistant")
  }

  /** One turn of the assembly loop: the accumulator after message `m`. */
  function Step(acc: string, m: Message): string {
    if m.role == Some("system") then
      acc + "System: " + Text(m) + "\n\n"
    else if m.role == Some("user") then
      (if acc != "" && !EndsWith(acc, "\n\n") then acc + "\n\n" else acc) + "User: " + Text(m)
    else if m.role == Some("assistant") then
      acc + "\n\nAssistant: " + Text(m)
    else
      acc
  }

  /** The accumulator once the loop has consumed all of `ms`, starting from
      the empty string: a left fold of `Step`. */
  function Transcript(ms: seq<Message>): string {
    if ms == [] then "" else Step(Transcript(ms[..|ms| - 1]), ms[|ms| - 1])
  }

  /** The prompt handed to the launcher: the transcript, stripped. It never
      starts or ends with whitespace, and no messages give the empty prompt. */
  function Prompt(ms: seq<Message>): (p: string)
    ensures Trimmed(p)
    ensures ms == [] ==> p == ""
  {
    Strip(Transcript(ms))
  }

  /** The loop of the request handler, accumulating the transcript in place. */
  method AssemblePrompt(messages: seq<Message>) returns (prompt: string)
    ensures prompt == Prompt(messages)
  {
    prompt := "";
    for i := 0 to |messages|
      invariant prompt == Transcript(messages[..i])
    {
      var msg := messages[i];
      var role := msg.role;
      var content := Text(msg);
      if role == Some("system") {
        prompt := prompt + "System: " + content + "\n\n";
      } else if role == Some("user") {
        if prompt != "" && !EndsWith(prompt, "\n\n") {
          prompt := prompt + "\n\n";
        }
        prompt := prompt + "User: " + content;
      } else if role == Some("assistant") {
        prompt := prompt + "\n\nAssistant: " + content;
      }
      assert messages[..i + 1][..i] == messages[..i];
    }
    assert messages[..|messages|] == messages;
    prompt := Strip(prompt);
  }

  /** What one more message appends to the transcript, role by role. */
  lemma RoleRules(ms: seq<Message>, m: Message)
    ensures var before, after := Transcript(ms), Transcript(ms + [m]);
      && (m.role == Some("system") ==> after == before + "System: " + Text(m) + "\n\n")
      && (m.role == Some("assistant") ==> after == before + "\n\nAssistant: " + Text(m))
      && ((m.role == Some("user") && (before == "" || EndsWith(before, "\n\n")))
          ==> after == before + "User: " + Text(m))
      && ((m.role == Some("user") && before != "" && !EndsWith(before, "\n\n"))
          ==> after == before + "\n\n" + "User: " + Text(m))
      && (!KnownRole(m) ==> after == before)
  {
    assert (ms + [m])[..|ms|] == ms;
  }

  /** Assembly only ever appends: a message never rewrites what earlier
      messages contributed. */
  lemma {:induction false} TranscriptExtends(ms: seq<Message>, k: nat)
    requires k <= |ms|
    ensures |Transcript(ms[..k])| <= |Transcript(ms)|
    ensures Transcript(ms)[..|Transcript(ms[..k])|] == Transcript(ms[..k])
  {
    if k < |ms| {
      var init := ms[..|ms| - 1];
      assert init[..k] == ms[..k];
      TranscriptExtends(init, k);
      var a, b := Transcript(init), Transcript(ms);
      assert b[..|a|] == a;
    } else {
      assert ms[..k] == ms;
    }
  }

  /** The messages the assembler acts on, in their original order. */
  function KnownOnly(ms: seq<Message>): (r: seq<Message>)
    ensures |r| <= |ms|
    ensures forall i :: 0 <= i < |r| ==> KnownRole(r[i])
    ensures forall m :: m in r <==> m in ms && KnownRole(m)
  {
    if ms == [] then []
    else KnownOnly(ms[..|ms| - 1]) + (if KnownRole(ms[|ms| - 1]) then [ms[|ms| - 1]] else [])
  }

  /** Messages with an unknown or missing role are ignored: dropping them
      first gives the same transcript, and so the same prompt. */
  lemma {:induction false} UnknownRolesIgnored(ms: seq<Message>)
    ensures Transcript(KnownOnly(ms)) == Transcript(ms)
    ensures Prompt(KnownOnly(ms)) == Prompt(ms)
  {
    if ms != [] {
      var init, last := ms[..|ms| - 1], ms[|ms| - 1];
      UnknownRolesIgnored(init);
      if KnownRole(last) {
        var f := KnownOnly(init) + [last];
        assert f[..|f| - 1] == KnownOnly(init);
      } else {
        assert KnownOnly(ms) == KnownOnly(init);
      }
    }
  }

  /** Worked cases of the assembly rules. */
  lemma SingleUserPrompt(ms: seq<Message>)
    requires ms == [Message(Some("user"), Some("Hi"))]
    ensures Prompt(ms) == "User: Hi"
  {
    assert ms[..0] == [];
    var p: string := "User: Hi";
    assert Transcript(ms) == p;
    assert p[0] == 'U' && p[|p| - 1] == 'i';
    PrintableNotSpace('U');
    PrintableNotSpace('i');
    StripTrimmed(p);
  }

  lemma SystemThenUserTranscript(ms: seq<Message>)
    requires ms == [Message(Some("system"), Some("S")), Message(Some("user"), Some("U"))]
    ensures Transcript(ms) == "System: S\n\nUser: U"
  {
    assert ms[..1][..0] == [] && ms[..1] == [ms[0]];
    var sys: string := "System: S\n\n";
    assert Transcript(ms[..1]) == sys;
    assert EndsWith(sys, "\n\n") by {
      assert sys[|sys| - 2..] == "\n\n";
    }
  }

  /** A system message already ends in a blank line, so the user turn adds none. */
  lemma SystemThenUserPrompt(ms: seq<Message>)
    requires ms == [Message(Some("system"), Some("S")), Message(Some("user"), Some("U"))]
    ensures Prompt(ms) == "System: S\n\nUser: U"
  {
    SystemThenUserTranscript(ms);
    var p: string := "System: S\n\nUser: U";
    assert p[0] == 'S' && p[|p| - 1] == 'U';
    PrintableNotSpace('S');
    PrintableNotSpace('U');
    StripTrimmed(p);
  }

  /** Only unknown or missing roles: nothing is assembled. */
  lemma UnknownOnlyPrompt(ms: seq<Message>)
    requires ms == [Message(Some("tool"), Some("T")), Message(None, Some("N"))]
    ensures Prompt(ms) == ""
  {
    assert ms[..1][..0] == [] && ms[..1] == [ms[0]];
    assert Transcript(ms[..1]) == "";
    assert Transcript(ms) == "";
  }
}
