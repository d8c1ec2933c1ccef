/**
 The provision stream: the server re-emits provisioner events as newline-
 delimited JSON, and the browser decodes arbitrary chunks of it. Both endpoints
 (agent creation and onboarding) and both clients have this shape. JSON printing
 and parsing are a codec; that a printed object is one line is section 7 of
 RFC 8259, which forbids raw control characters inside strings.
 */
module ProvisionStream {
  import opened Options

  // ----- Events and the codec -----

  /** A missing field and a falsy one read the same, so "" and 0 stand for both,
      except for the error, whose default applies to a missing key only. */
  datatype Event =
    | Progress(step: int, total: int, caption: string)
    | Outcome(success: bool, agentId: string, gatewayUrl: string, port: int, status: string,
              error: Option<string>, tenant: Option<int>)
    | Other(body: string)

  /** What JSON.parse makes of a line; null is a value without a type field. */
  datatype Parsed = Malformed | Null | Value(event: Event)

  datatype Codec = Codec(render: Event -> string, parse: string -> Parsed)

  predicate IsObjectLine(s: string) {
    |s| >= 2 && s[0] == '{' && s[|s| - 1] == '}' && '\n' !in s
  }

  ghost predicate Lawful(c: Codec) {
    forall e :: c.parse(c.render(e)) == Value(e) && IsObjectLine(c.render(e))
  }

  // ----- Text -----

  function Concat(parts: seq<string>): string {
    if parts == [] then "" else Concat(parts[..|parts| - 1]) + parts[|parts| - 1]
  }

  /** String.split on newlines: the complete lines, then the last fragment. */
  function Split(s: string): (r: seq<string>)
    ensures r != []
  {
    Complete(s) + [Fragment(s)]
  }

  function Complete(s: string): seq<string> {
    if s == "" then []
    else
      var n := |s| - 1;
      Complete(s[..n]) + if s[n] == '\n' then [Fragment(s[..n])] else []
  }

  function Fragment(s: string): string {
    if s == "" then ""
    else
      var n := |s| - 1;
      if s[n] == '\n' then "" else Fragment(s[..n]) + [s[n]]
  }

  function Join(lines: seq<string>): string {
    if lines == [] then "" else Join(lines[..|lines| - 1]) + lines[|lines| - 1] + "\n"
  }

  /** What makes it the split: no piece holds a newline, and the complete lines,
      each with its newline, followed by the fragment are the text. */
  lemma {:induction false} SplitIsSplit(s: string)
    ensures forall l :: l in Split(s) ==> '\n' !in l
    ensures Join(Complete(s)) + Fragment(s) == s
  {
    if s != "" {
      var n := |s| - 1;
      SplitIsSplit(s[..n]);
      assert s == s[..n] + [s[n]];
      if s[n] == '\n' {
        assert Complete(s)[..|Complete(s)| - 1] == Complete(s[..n]);
        assert Join(Complete(s)) == Join(Complete(s[..n])) + Fragment(s[..n]) + "\n";
      } else {
        assert Complete(s) == Complete(s[..n]);
        assert Join(Complete(s)) + Fragment(s) == (Join(Complete(s[..n])) + Fragment(s[..n])) + [s[n]];
      }
    }
  }

  /** What String.trim removes. */
  predicate IsSpace(c: char) {
    c == ' ' || '\t' <= c <= '\r' || '\U{2000}' <= c <= '\U{200A}' ||
    c == '\U{00A0}' || c == '\U{1680}' || c == '\U{2028}' || c == '\U{2029}' ||
    c == '\U{202F}' || c == '\U{205F}' || c == '\U{3000}' || c == '\U{FEFF}'
  }

  function TrimLeft(s: string): string {
    if s != "" && IsSpace(s[0]) then TrimLeft(s[1..]) else s
  }

  function TrimRight(s: string): string {
    if s != "" && IsSpace(s[|s| - 1]) then TrimRight(s[..|s| - 1]) else s
  }

  function Trim(s: string): string { TrimRight(TrimLeft(s)) }

  predicate Blank(s: string) {
    forall i :: 0 <= i < |s| ==> IsSpace(s[i])
  }

  /** Spaces at the ends go, all of them and nothing else. */
  lemma TrimIs(s: string) returns (pre: string, post: string)
    ensures s == pre + Trim(s) + post && Blank(pre) && Blank(post)
    ensures Trim(s) != "" ==> !IsSpace(Trim(s)[0]) && !IsSpace(Trim(s)[|Trim(s)| - 1])
  {
    pre := TrimLeftIs(s);
    post := TrimRightIs(TrimLeft(s));
    if Trim(s) != "" {
      assert Trim(s)[0] == TrimLeft(s)[0];
    }
  }

  lemma {:induction false} TrimLeftIs(s: string) returns (pre: string)
    ensures s == pre + TrimLeft(s) && Blank(pre) && (TrimLeft(s) != "" ==> !IsSpace(TrimLeft(s)[0]))
  {
    pre := "";
    if s != "" && IsSpace(s[0]) {
      var rest := TrimLeftIs(s[1..]);
      pre := [s[0]] + rest;
    }
  }

  lemma {:induction false} TrimRightIs(s: string) returns (post: string)
    ensures s == TrimRight(s) + post && Blank(post)
    ensures TrimRight(s) != "" ==> !IsSpace(TrimRight(s)[|TrimRight(s)| - 1])
  {
    post := "";
    if s != "" && IsSpace(s[|s| - 1]) {
      var rest := TrimRightIs(s[..|s| - 1]);
      post := rest + [s[|s| - 1]];
    }
  }

  lemma SpaceIs(c: char)
    ensures IsSpace(c) <==>
              c as int in {9, 10, 11, 12, 13, 32, 0xA0, 0x1680, 0x2000, 0x2001, 0x2002, 0x2003, 0x2004, 0x2005, 0x2006,
                0x2007, 0x2008, 0x2009, 0x200A, 0x2028, 0x2029, 0x202F, 0x205F, 0x3000, 0xFEFF}
  {
  }

  // ----- The server -----

  /** The requested agent id, whether a phone is bound, and for the onboarding
      endpoint the tenant it reports and whose user it completes. */
  datatype Flow = Flow(agentId: string, phoneBound: bool, tenant: Option<int>)

  function Total(f: Flow): int { if f.phoneBound then 5 else 4 }

  function Forwarded(events: seq<Event>, total: int): seq<Event> {
    if events == [] then []
    else
      var n := |events| - 1;
      Forwarded(events[..n], total) +
      match events[n]
      case Progress(step, _, caption) => [Progress(step, total, caption)]
      case Outcome(_, _, _, _, _, _, _) => []
      case Other(_) => [events[n]]
  }

  function LastOutcome(events: seq<Event>): (r: Option<Event>)
    ensures r.Some? ==> r.value.Outcome?
  {
    if events == [] then None
    else if events[|events| - 1].Outcome? then Some(events[|events| - 1])
    else LastOutcome(events[..|events| - 1])
  }

  function Failure(error: string): Event {
    Outcome(false, "", "", 0, "", Some(error), None)
  }

  function Success(f: Flow, r: Event): Event
    requires r.Outcome?
  {
    Outcome(true, if r.agentId == "" then f.agentId else r.agentId, r.gatewayUrl, r.port, "active", None, f.tenant)
  }

  predicate Provisioned(events: seq<Event>, raised: Option<string>) {
    raised.None? && LastOutcome(events).Some? && LastOutcome(events).value.success
  }

  function FailureText(events: seq<Event>, raised: Option<string>): string {
    if raised.Some? then "provision_stream error: " + raised.value
    else
      var r := LastOutcome(events);
      if r.Some? && r.value.error.Some? then r.value.error.value else "provision_failed"
  }

  const WELCOME := Progress(5, 5, "Sending welcome message")

  function FinalOutcome(f: Flow, events: seq<Event>, raised: Option<string>): (e: Event)
    ensures e.Outcome?
  {
    if Provisioned(events, raised) then Success(f, LastOutcome(events).value)
    else Failure(FailureText(events, raised))
  }

  function Closing(f: Flow, events: seq<Event>, raised: Option<string>): seq<Event> {
    (if f.phoneBound && Provisioned(events, raised) then [WELCOME] else []) + [FinalOutcome(f, events, raised)]
  }

  /** Everything the server emits: what it forwards, then exactly one outcome. */
  function Emitted(f: Flow, events: seq<Event>, raised: Option<string>): seq<Event> {
    Forwarded(events, Total(f)) + Closing(f, events, raised)
  }

  function Printed(c: Codec, events: seq<Event>): seq<string> {
    seq(|events|, i requires 0 <= i < |events| => c.render(events[i]) + "\n")
  }

  /** events[k] is the last result the provisioner gives. */
  ghost predicate LastResult(events: seq<Event>, k: int) {
    0 <= k < |events| && events[k].Outcome? && forall j :: k < j < |events| ==> !events[j].Outcome?
  }

  /** An exception ends the run, whatever came before it; otherwise the last
      result decides, and having none is a failure. */
  ghost predicate ClosesAs(f: Flow, events: seq<Event>, raised: Option<string>, closing: seq<Event>) {
    && (raised.Some? ==>
          closing == [Outcome(false, "", "", 0, "", Some("provision_stream error: " + raised.value), None)])
    && (raised.None? && (forall i :: 0 <= i < |events| ==> !events[i].Outcome?) ==>
          closing == [Outcome(false, "", "", 0, "", Some("provision_failed"), None)])
    && forall k :: raised.None? && LastResult(events, k) ==>
         match events[k]
         case Outcome(true, agentId, gatewayUrl, port, _, _, _) =>
           closing == (if f.phoneBound then [Progress(5, 5, "Sending welcome message")] else []) +
                      [Outcome(true, if agentId == "" then f.agentId else agentId, gatewayUrl, port,
                         "active", None, f.tenant)]
         case Outcome(false, _, _, _, _, error, _) =>
           closing == [Outcome(false, "", "", 0, "", if error.Some? then error else Some("provision_failed"), None)]
  }

  lemma ClosingIs(f: Flow, events: seq<Event>, raised: Option<string>)
    ensures ClosesAs(f, events, raised, Closing(f, events, raised))
    ensures Emitted(f, events, raised) ==
            Forwarded(events, if f.phoneBound then 5 else 4) + Closing(f, events, raised)
  {
    LastIs(events);
  }

  lemma ProvisionedIff(events: seq<Event>, raised: Option<string>)
    ensures Provisioned(events, raised) <==>
              raised.None? && exists k :: LastResult(events, k) && events[k].success
  {
    LastIs(events);
  }

  lemma {:induction false} LastIs(events: seq<Event>)
    ensures forall k :: LastResult(events, k) ==> LastOutcome(events) == Some(events[k])
    ensures LastOutcome(events).None? ==> forall i :: 0 <= i < |events| ==> !events[i].Outcome?
    ensures LastOutcome(events).Some? ==> exists k :: LastResult(events, k)
  {
    if events != [] {
      var n := |events| - 1;
      LastIs(events[..n]);
      if events[n].Outcome? {
        assert LastResult(events, n);
      } else {
        forall k | LastResult(events, k) ensures LastOutcome(events) == Some(events[k]) {
          assert LastResult(events[..n], k);
        }
        if LastOutcome(events).Some? {
          var k :| LastResult(events[..n], k);
          assert LastResult(events, k);
        }
      }
    }
  }

  /** Event by event: progress with the total rewritten, results held back and
      anything else as it came, in order. */
  lemma {:induction false} ForwardedIs(a: seq<Event>, e: Event, b: seq<Event>, total: int)
    ensures Forwarded(a + [e] + b, total) ==
            Forwarded(a, total) +
            (if e.Outcome? then [] else [if e.Progress? then Progress(e.step, total, e.caption) else e]) +
            Forwarded(b, total)
    ensures Forwarded([], total) == []
  {
    if b == [] {
      assert a + [e] + b == a + [e] && (a + [e])[..|a|] == a;
    } else {
      var n := |b| - 1;
      ForwardedIs(a, e, b[..n], total);
      assert (a + [e] + b)[..|a + [e] + b| - 1] == a + [e] + b[..n];
    }
  }

  /** The generator: events arrive one by one, and the provisioner may raise
      after the last of them. Reports whether onboarding was marked complete. */
  method EventStream(c: Codec, f: Flow, events: seq<Event>, raised: Option<string>)
    returns (lines: seq<string>, completed: bool)
    ensures lines == Printed(c, Emitted(f, events, raised))
    ensures completed <==> f.tenant.Some? && raised.None? && exists k :: LastResult(events, k) && events[k].success
  {
    ProvisionedIff(events, raised);
    var vmResult: Option<Event> := None;
    lines, completed := [], false;
    var i := 0;
    while i < |events|
      invariant 0 <= i <= |events|
      invariant lines == Printed(c, Forwarded(events[..i], Total(f)))
      invariant vmResult == LastOutcome(events[..i])
    {
      var e := events[i];
      ForwardOne(c, events, i, Total(f));
      if e.Outcome? {
        vmResult := Some(e);
      } else {
        if e.Progress? {
          e := e.(total := Total(f));
        }
        lines := lines + [c.render(e) + "\n"];
      }
      i := i + 1;
    }
    assert events[..i] == events;
    if raised.Some? {
      lines := lines + [c.render(Failure("provision_stream error: " + raised.value)) + "\n"];
      return;
    }
    if vmResult.None? || !vmResult.value.success {
      var error := if vmResult.Some? && vmResult.value.error.Some?
          then vmResult.value.error.value else "provision_failed";
      lines := lines + [c.render(Failure(error)) + "\n"];
      return;
    }
    if f.phoneBound {
      lines := lines + [c.render(WELCOME) + "\n"];
    }
    completed := f.tenant.Some?;
    lines := lines + [c.render(Success(f, vmResult.value)) + "\n"];
  }

  lemma ForwardOne(c: Codec, events: seq<Event>, i: nat, total: int)
    requires i < |events|
    ensures var e := events[i];
            && Printed(c, Forwarded(events[..i + 1], total)) ==
               Printed(c, Forwarded(events[..i], total)) +
               (if e.Outcome? then [] else [c.render(if e.Progress? then e.(total := total) else e) + "\n"])
            && LastOutcome(events[..i + 1]) == if e.Outcome? then Some(e) else LastOutcome(events[..i])
  {
    assert events[..i + 1][..i] == events[..i];
  }

  // ----- The client -----

  datatype Tick = Tick(step: int, total: int, caption: string)

  datatype Verdict =
    | Running
    | Created(agentId: string, gatewayUrl: string, port: int, status: string)
    | Threw(message: string)

  /** The messages that differ between the two clients, and the engine's own
      TypeError for reading a field of null. */
  datatype Messages = Messages(failed: string, ended: string, typeError: string)

  datatype View = View(ticks: seq<Tick>, verdict: Verdict)

  function VerdictOf(e: Event, m: Messages): Verdict
    requires e.Outcome?
  {
    if e.success then Created(e.agentId, e.gatewayUrl, e.port, if e.status == "" then "active" else e.status)
    else Threw(if e.error.Some? && e.error.value != "" then e.error.value else m.failed)
  }

  /** A blank line is skipped, as one that does not parse is. */
  function Decoded(c: Codec, raw: string): Parsed {
    var line := Trim(raw);
    if line == "" then Malformed else c.parse(line)
  }

  function Absorb(v: View, p: Parsed, m: Messages): View {
    if v.verdict != Running || p.Malformed? then v
    else if p.Null? then View(v.ticks, Threw(m.typeError))
    else if p.event.Progress? then View(v.ticks + [Tick(p.event.step, p.event.total, p.event.caption)], Running)
    else if p.event.Outcome? then View(v.ticks, VerdictOf(p.event, m))
    else v
  }

  /** Complete lines read in order, up to the first outcome. */
  function Read(c: Codec, m: Messages, lines: seq<string>): View {
    if lines == [] then View([], Running)
    else Absorb(Read(c, m, lines[..|lines| - 1]), Decoded(c, lines[|lines| - 1]), m)
  }

  /** The whole text at once: split it, drop the last fragment, read the rest. */
  function ReadText(c: Codec, m: Messages, text: string): View {
    var v := Read(c, m, Complete(text));
    if v.verdict == Running then View(v.ticks, Threw(m.ended)) else v
  }

  /** The i-th line settles the matter: it is a result, or null. */
  ghost predicate Settles(c: Codec, lines: seq<string>, i: int) {
    0 <= i < |lines| && Trim(lines[i]) != "" &&
    (c.parse(Trim(lines[i])) == Null ||
     (c.parse(Trim(lines[i])).Value? && c.parse(Trim(lines[i])).event.Outcome?))
  }

  /** What a settling line says: the result's fields, with the client's own words
      where the error is missing or empty. */
  ghost predicate Says(m: Messages, p: Parsed, verdict: Verdict) {
    match p
    case Value(Outcome(true, agentId, gatewayUrl, port, status, _, _)) =>
      verdict == Created(agentId, gatewayUrl, port, if status == "" then "active" else status)
    case Value(Outcome(false, _, _, _, _, error, _)) =>
      verdict == Threw(if error == None || error == Some("") then m.failed else error.value)
    case _ => verdict == Threw(m.typeError)
  }

  /** The client's answer, read off the complete lines: that of the first line
      that is a result or null, or the early end when there is none. */
  lemma ReadTextIs(c: Codec, m: Messages, text: string)
    ensures (forall i :: 0 <= i < |Complete(text)| ==> !Settles(c, Complete(text), i)) ==>
              ReadText(c, m, text).verdict == Threw(m.ended)
    ensures forall i :: FirstSettling(c, Complete(text), i) ==>
              Says(m, c.parse(Trim(Complete(text)[i])), ReadText(c, m, text).verdict)
  {
    var lines := Complete(text);
    SettledAt(c, m, lines);
    forall i | FirstSettling(c, lines, i) ensures Says(m, c.parse(Trim(lines[i])), ReadText(c, m, text).verdict) {
      SettlesSo(c, m, lines, i);
    }
  }

  ghost predicate FirstSettling(c: Codec, lines: seq<string>, i: int) {
    Settles(c, lines, i) && forall j :: 0 <= j < i ==> !Settles(c, lines, j)
  }

  lemma SettlesSo(c: Codec, m: Messages, lines: seq<string>, i: nat)
    requires FirstSettling(c, lines, i)
    ensures Read(c, m, lines).verdict != Running
    ensures Says(m, c.parse(Trim(lines[i])), Read(c, m, lines).verdict)
  {
    var before := lines[..i];
    forall j | 0 <= j < i ensures !Settles(c, before, j) {
      assert !Settles(c, lines, j);
    }
    SettledAt(c, m, before);
    ReadAround(c, m, lines, i);
  }

  /** Once a line has decided, the rest is not read. */
  lemma ReadAround(c: Codec, m: Messages, lines: seq<string>, i: nat)
    requires i < |lines|
    ensures var v := Absorb(Read(c, m, lines[..i]), Decoded(c, lines[i]), m);
            v.verdict != Running ==> Read(c, m, lines) == v
  {
    assert lines[..i + 1][..i] == lines[..i];
    assert lines[..i + 1] + lines[i + 1..] == lines;
    if Read(c, m, lines[..i + 1]).verdict != Running {
      ReadStops(c, m, lines[..i + 1], lines[i + 1..]);
    }
  }

  lemma {:induction false} SettledAt(c: Codec, m: Messages, lines: seq<string>)
    ensures (forall i :: 0 <= i < |lines| ==> !Settles(c, lines, i)) ==> Read(c, m, lines).verdict == Running
  {
    if lines != [] {
      var n := |lines| - 1;
      SettledAt(c, m, lines[..n]);
      if forall i :: 0 <= i < |lines| ==> !Settles(c, lines, i) {
        assert !Settles(c, lines, n);
        forall i | 0 <= i < n ensures !Settles(c, lines[..n], i) {
          assert !Settles(c, lines, i);
        }
      }
    }
  }

  /** Each line adds its progress to what is shown, as long as none has settled it. */
  lemma ShownIs(c: Codec, m: Messages, lines: seq<string>, line: string)
    ensures var p := c.parse(Trim(line));
            Read(c, m, lines + [line]).ticks ==
            Read(c, m, lines).ticks +
            if (forall i :: 0 <= i < |lines| ==> !Settles(c, lines, i))
               && Trim(line) != "" && p.Value? && p.event.Progress?
            then [Tick(p.event.step, p.event.total, p.event.caption)] else []
    ensures Read(c, m, []).ticks == []
  {
    ReadSnoc(c, m, lines, line);
    SettledAt(c, m, lines);
    if exists i :: Settles(c, lines, i) {
      var i :| Settles(c, lines, i);
      StaysSettled(c, m, lines, i);
    }
  }

  lemma StaysSettled(c: Codec, m: Messages, lines: seq<string>, i: nat)
    requires Settles(c, lines, i)
    ensures Read(c, m, lines).verdict != Running
  {
    ReadAround(c, m, lines, i);
    if Read(c, m, lines[..i]).verdict != Running {
      assert lines[..i] + lines[i..] == lines;
      ReadStops(c, m, lines[..i], lines[i..]);
    }
  }

  /** The inner loop, over the lines one chunk completes, behind those seen. */
  method ScanLines(c: Codec, m: Messages, ghost seen: seq<string>, shown: seq<Tick>, lines: seq<string>)
    returns (ticks: seq<Tick>, verdict: Verdict)
    requires Read(c, m, seen) == View(shown, Running)
    ensures Read(c, m, seen + lines) == View(ticks, verdict)
  {
    ticks, verdict := shown, Running;
    var j := 0;
    ghost var done := seen;
    while j < |lines|
      invariant 0 <= j <= |lines|
      invariant done + lines[j..] == seen + lines
      invariant Read(c, m, done) == View(ticks, Running)
    {
      ReadSnoc(c, m, done, lines[j]);
      done := done + [lines[j]];
      var parsed := Decoded(c, lines[j]);
      if parsed.Value? && parsed.event.Progress? {
        ticks := ticks + [Tick(parsed.event.step, parsed.event.total, parsed.event.caption)];
      } else if parsed.Null? || (parsed.Value? && parsed.event.Outcome?) {
        verdict := if parsed.Null? then Threw(m.typeError) else VerdictOf(parsed.event, m);
        ReadStops(c, m, done, lines[j + 1..]);
        assert done + lines[j + 1..] == seen + lines;
        return;
      }
      j := j + 1;
    }
    assert done == seen + lines;
  }

  lemma ReadSnoc(c: Codec, m: Messages, lines: seq<string>, line: string)
    ensures Read(c, m, lines + [line]) == Absorb(Read(c, m, lines), Decoded(c, line), m)
  {
    assert (lines + [line])[..|lines|] == lines;
  }

  /** The read loop: whatever the chunks, the callbacks fired and the final
      outcome are those of the whole text. */
  method ReadStream(c: Codec, m: Messages, chunks: seq<string>) returns (ticks: seq<Tick>, verdict: Verdict)
    ensures View(ticks, verdict) == ReadText(c, m, Concat(chunks))
  {
    var buffer := "";
    ticks, verdict := [], Running;
    var i := 0;
    while i < |chunks|
      invariant 0 <= i <= |chunks|
      invariant buffer == Fragment(Concat(chunks[..i]))
      invariant Read(c, m, Complete(Concat(chunks[..i]))) == View(ticks, Running)
    {
      assert chunks[..i + 1][..i] == chunks[..i];
      SplitAppend(Concat(chunks[..i]), chunks[i]);
      buffer := buffer + chunks[i];
      var lines := Split(buffer);
      buffer := lines[|lines| - 1];
      lines := lines[..|lines| - 1];
      ticks, verdict := ScanLines(c, m, Complete(Concat(chunks[..i])), ticks, lines);
      if verdict != Running {
        MoreText(c, m, chunks, i + 1);
        return;
      }
      i := i + 1;
    }
    assert chunks[..i] == chunks;
    verdict := Threw(m.ended);
  }

  /** Splitting a concatenation: only the last fragment of the first part grows. */
  lemma {:induction false} SplitAppend(a: string, b: string)
    ensures Complete(a + b) == Complete(a) + Complete(Fragment(a) + b)
    ensures Fragment(a + b) == Fragment(Fragment(a) + b)
  {
    if b == "" {
      FragmentAlone(a);
      assert a + b == a && Fragment(a) + b == Fragment(a);
    } else {
      var p, x := b[..|b| - 1], b[|b| - 1];
      assert p + [x] == b;
      SplitAppend(a, p);
      SplitGrow(a, p, x);
    }
  }

  lemma FragmentAlone(a: string)
    ensures Complete(Fragment(a)) == [] && Fragment(Fragment(a)) == Fragment(a)
  {
    SplitIsSplit(a);
    NoNewline(Fragment(a));
  }

  lemma SplitGrow(a: string, p: string, x: char)
    requires Complete(a + p) == Complete(a) + Complete(Fragment(a) + p)
    requires Fragment(a + p) == Fragment(Fragment(a) + p)
    ensures Complete(a + (p + [x])) == Complete(a) + Complete(Fragment(a) + (p + [x]))
    ensures Fragment(a + (p + [x])) == Fragment(Fragment(a) + (p + [x]))
  {
    SplitSnocTo(a + p, x, a + (p + [x]));
    SplitSnocTo(Fragment(a) + p, x, Fragment(a) + (p + [x]));
    Reassociate(Complete(a), Complete(Fragment(a) + p), Fragment(a + p));
  }

  lemma Reassociate(a: seq<string>, b: seq<string>, x: string)
    ensures (a + b) + [x] == a + (b + [x])
  {
  }

  lemma SplitSnocTo(s: string, x: char, t: string)
    requires t == s + [x]
    ensures Complete(t) == if x == '\n' then Complete(s) + [Fragment(s)] else Complete(s)
    ensures Fragment(t) == if x == '\n' then "" else Fragment(s) + [x]
  {
    SplitSnoc(s, x);
  }

  lemma SplitSnoc(s: string, x: char)
    ensures Complete(s + [x]) == if x == '\n' then Complete(s) + [Fragment(s)] else Complete(s)
    ensures Fragment(s + [x]) == if x == '\n' then "" else Fragment(s) + [x]
  {
    assert (s + [x])[..|s|] == s;
  }

  lemma {:induction false} NoNewline(s: string)
    requires '\n' !in s
    ensures Complete(s) == [] && Fragment(s) == s
  {
    if s != "" {
      NoNewline(s[..|s| - 1]);
    }
  }

  lemma {:induction false} ReadStops(c: Codec, m: Messages, lines: seq<string>, more: seq<string>)
    requires Read(c, m, lines).verdict != Running
    ensures Read(c, m, lines + more) == Read(c, m, lines)
  {
    if more == [] {
      assert lines + more == lines;
    } else {
      ReadStops(c, m, lines, more[..|more| - 1]);
      assert (lines + more)[..|lines + more| - 1] == lines + more[..|more| - 1];
    }
  }

  lemma {:induction false} ConcatTwo(chunks: seq<string>, i: nat)
    requires i <= |chunks|
    ensures Concat(chunks) == Concat(chunks[..i]) + Concat(chunks[i..])
  {
    if i == |chunks| {
      assert chunks[..i] == chunks;
    } else {
      var n := |chunks| - 1;
      ConcatTwo(chunks[..n], i);
      assert chunks[..n][..i] == chunks[..i] && chunks[..n][i..] == chunks[i..][..n - i];
    }
  }

  lemma MoreText(c: Codec, m: Messages, chunks: seq<string>, i: nat)
    requires i <= |chunks| && Read(c, m, Complete(Concat(chunks[..i]))).verdict != Running
    ensures Read(c, m, Complete(Concat(chunks))) == Read(c, m, Complete(Concat(chunks[..i])))
  {
    ConcatTwo(chunks, i);
    MoreChunk(c, m, Concat(chunks[..i]), Concat(chunks[i..]));
  }

  lemma MoreChunk(c: Codec, m: Messages, text: string, chunk: string)
    ensures Read(c, m, Complete(text)).verdict != Running ==>
              Read(c, m, Complete(text + chunk)) == Read(c, m, Complete(text))
  {
    SplitAppend(text, chunk);
    if Read(c, m, Complete(text)).verdict != Running {
      ReadStops(c, m, Complete(text), Complete(Fragment(text) + chunk));
    }
  }

  // ----- End to end -----

  function Ticks(events: seq<Event>): seq<Tick> {
    if events == [] then []
    else
      var n := |events| - 1;
      Ticks(events[..n]) +
      if events[n].Progress? then [Tick(events[n].step, events[n].total, events[n].caption)] else []
  }

  /** Exactly one outcome is emitted, and it is last. */
  lemma OneOutcomeLast(f: Flow, events: seq<Event>, raised: Option<string>, i: nat)
    requires i < |Emitted(f, events, raised)|
    ensures Emitted(f, events, raised)[i].Outcome? <==> i == |Emitted(f, events, raised)| - 1
  {
    ForwardedQuiet(events, Total(f));
  }

  lemma ForwardedQuiet(events: seq<Event>, total: int)
    ensures forall e :: e in Forwarded(events, total) ==> !e.Outcome? && (e.Progress? ==> e.total == total)
  {
  }

  function Bare(c: Codec, events: seq<Event>): seq<string> {
    seq(|events|, i requires 0 <= i < |events| => c.render(events[i]))
  }

  /** Any prefix of the printed stream completes a number of its lines: all of
      them only when nothing is cut off. */
  lemma {:induction false} PrefixLines(c: Codec, events: seq<Event>, text: string) returns (n: nat)
    requires Lawful(c) && text <= Concat(Printed(c, events))
    ensures n <= |events| && Complete(text) == Bare(c, events)[..n]
    ensures n == |events| <==> text == Concat(Printed(c, events))
  {
    if events == [] {
      return 0;
    }
    var k := |events| - 1;
    var before := Concat(Printed(c, events[..k]));
    PrintedLast(c, events);
    var tail := PrefixSplit(text, before, c.render(events[k]) + "\n");
    if |text| < |before| {
      n := PrefixLines(c, events[..k], text);
    } else {
      n := PrefixLines(c, events[..k], before);
      LastLine(c, events, tail);
      if tail == c.render(events[k]) + "\n" {
        n := k + 1;
      }
    }
  }

  lemma PrefixSplit(text: string, before: string, last: string) returns (tail: string)
    requires text <= before + last
    ensures |text| < |before| ==> text <= before
    ensures |text| >= |before| ==> text == before + tail && tail <= last
  {
    tail := if |text| >= |before| then text[|before|..] else "";
  }

  lemma LastLine(c: Codec, events: seq<Event>, tail: string)
    requires Lawful(c) && events != [] && tail <= c.render(events[|events| - 1]) + "\n"
    ensures var k := |events| - 1;
            var before := Concat(Printed(c, events[..k]));
            Complete(before + tail) == Complete(before) + (if tail == c.render(events[k]) + "\n"
                then [c.render(events[k])] else [])
  {
    var k := |events| - 1;
    var before := Concat(Printed(c, events[..k]));
    assert IsObjectLine(c.render(events[k]));
    WholeLines(c, events[..k]);
    SplitAppend(before, tail);
    assert Fragment(before) + tail == tail;
    PartialLine(c.render(events[k]), tail);
  }

  lemma PrintedLast(c: Codec, events: seq<Event>)
    requires Lawful(c) && events != []
    ensures var k := |events| - 1;
            && Concat(Printed(c, events)) == Concat(Printed(c, events[..k])) + (c.render(events[k]) + "\n")
            && Bare(c, events) == Bare(c, events[..k]) + [c.render(events[k])]
            && IsObjectLine(c.render(events[k]))
  {
    var k := |events| - 1;
    assert Printed(c, events)[..k] == Printed(c, events[..k]);
  }

  lemma PartialLine(line: string, tail: string)
    requires '\n' !in line && tail <= line + "\n"
    ensures Complete(tail) == if tail == line + "\n" then [line] else []
  {
    if |tail| <= |line| {
      assert tail == line[..|tail|];
      NoNewline(tail);
    } else {
      assert tail == line + "\n" && tail[..|line|] == line;
      NoNewline(line);
    }
  }

  lemma {:induction false} WholeLines(c: Codec, events: seq<Event>)
    requires Lawful(c)
    ensures Fragment(Concat(Printed(c, events))) == ""
  {
    if events != [] {
      var k := |events| - 1;
      var line := c.render(events[k]);
      PrintedLast(c, events);
      WholeLines(c, events[..k]);
      SplitAppend(Concat(Printed(c, events[..k])), line + "\n");
      assert "" + (line + "\n") == line + "\n";
    }
  }

  /** Reading printed events, the outcome if any being last. */
  lemma {:induction false} ReadPrinted(c: Codec, m: Messages, events: seq<Event>)
    requires Lawful(c) && forall i :: 0 <= i < |events| - 1 ==> !events[i].Outcome?
    ensures Read(c, m, Bare(c, events)) ==
            View(Ticks(events),
                 if events != [] && events[|events| - 1].Outcome? then VerdictOf(events[|events| - 1], m) else Running)
  {
    if events != [] {
      var k := |events| - 1;
      assert Bare(c, events)[..k] == Bare(c, events[..k]);
      ReadPrinted(c, m, events[..k]);
      var line := c.render(events[k]);
      assert IsObjectLine(line) && Trim(line) == line && Decoded(c, line) == Value(events[k]);
    }
  }

  lemma TicksAppend(a: seq<Event>, b: seq<Event>)
    ensures Ticks(a + b) == Ticks(a) + Ticks(b)
  {
    if b == [] {
      assert a + b == a;
    } else {
      TicksAppend(a, b[..|b| - 1]);
      assert (a + b)[..|a + b| - 1] == a + b[..|b| - 1];
    }
  }

  /** The provisioner's progress, with the total rewritten. */
  function Rewritten(events: seq<Event>, total: int): seq<Tick> {
    if events == [] then []
    else
      var n := |events| - 1;
      Rewritten(events[..n], total) + if events[n].Progress?
          then [Tick(events[n].step, total, events[n].caption)] else []
  }

  lemma {:induction false} RewrittenIs(a: seq<Event>, e: Event, b: seq<Event>, total: int)
    ensures Rewritten(a + [e] + b, total) ==
            Rewritten(a, total) + (if e.Progress? then [Tick(e.step, total, e.caption)] else []) + Rewritten(b, total)
    ensures Rewritten([], total) == []
  {
    if b == [] {
      assert a + [e] + b == a + [e] && (a + [e])[..|a|] == a;
    } else {
      var n := |b| - 1;
      RewrittenIs(a, e, b[..n], total);
      assert (a + [e] + b)[..|a + [e] + b| - 1] == a + [e] + b[..n];
    }
  }

  lemma {:induction false} TicksForwarded(events: seq<Event>, total: int)
    ensures Ticks(Forwarded(events, total)) == Rewritten(events, total)
  {
    if events != [] {
      var n := |events| - 1;
      TicksForwarded(events[..n], total);
      var last := Forwarded(events, total)[|Forwarded(events[..n], total)|..];
      TicksAppend(Forwarded(events[..n], total), last);
      assert Forwarded(events, total) == Forwarded(events[..n], total) + last;
      if last != [] {
        assert last[..0] == [];
      }
    }
  }

  ghost predicate EndsAs(f: Flow, m: Messages, events: seq<Event>, raised: Option<string>, verdict: Verdict) {
    && (verdict.Created? <==> raised.None? && exists k :: LastResult(events, k) && events[k].success)
    && (raised.Some? ==> verdict == Threw("provision_stream error: " + raised.value))
    && (raised.None? && (forall i :: 0 <= i < |events| ==> !events[i].Outcome?) ==>
          verdict == Threw("provision_failed"))
    && forall k :: raised.None? && LastResult(events, k) ==>
         match events[k]
         case Outcome(true, agentId, gatewayUrl, port, _, _, _) =>
           verdict == Created(if agentId == "" then f.agentId else agentId, gatewayUrl, port, "active")
         case Outcome(false, _, _, _, _, None, _) => verdict == Threw("provision_failed")
         case Outcome(false, _, _, _, _, Some(error), _) => verdict == Threw(if error == "" then m.failed else error)
  }

  /** For every provisioner run and every chunking of what the server emits, the
      client shows exactly the provisioner's progress, in order and with the
      total rewritten, then the welcome step if it succeeds with a phone bound.
      It succeeds iff nothing was raised and the last result succeeded, and
      otherwise throws the text of what went wrong. */
  lemma EndToEnd(c: Codec, m: Messages, f: Flow, events: seq<Event>, raised: Option<string>, chunks: seq<string>)
    requires Lawful(c) && Concat(chunks) == Concat(Printed(c, Emitted(f, events, raised)))
    ensures var v := ReadText(c, m, Concat(chunks));
            && v.ticks == Rewritten(events, if f.phoneBound then 5 else 4) +
                          (if f.phoneBound && v.verdict.Created? then [Tick(5, 5, "Sending welcome message")] else [])
            && EndsAs(f, m, events, raised, v.verdict)
  {
    ReadEmitted(c, m, f, events, raised);
    TicksForwarded(events, Total(f));
    TicksEmitted(f, events, raised);
    FinalIs(f, m, events, raised);
  }

  lemma FinalIs(f: Flow, m: Messages, events: seq<Event>, raised: Option<string>)
    ensures EndsAs(f, m, events, raised, VerdictOf(FinalOutcome(f, events, raised), m))
    ensures Provisioned(events, raised) <==> VerdictOf(FinalOutcome(f, events, raised), m).Created?
  {
    LastIs(events);
  }

  lemma WholeText(c: Codec, events: seq<Event>)
    requires Lawful(c)
    ensures Complete(Concat(Printed(c, events))) == Bare(c, events)
  {
    var n := PrefixLines(c, events, Concat(Printed(c, events)));
    assert Bare(c, events)[..n] == Bare(c, events);
  }

  lemma ReadEmitted(c: Codec, m: Messages, f: Flow, events: seq<Event>, raised: Option<string>)
    requires Lawful(c)
    ensures var out := Emitted(f, events, raised);
            ReadText(c, m, Concat(Printed(c, out))) == View(Ticks(out), VerdictOf(FinalOutcome(f, events, raised), m))
  {
    var out := Emitted(f, events, raised);
    forall i | 0 <= i < |out| - 1 ensures !out[i].Outcome? {
      OneOutcomeLast(f, events, raised, i);
    }
    WholeText(c, out);
    ReadPrinted(c, m, out);
    assert out[|out| - 1] == FinalOutcome(f, events, raised);
  }

  lemma TicksEmitted(f: Flow, events: seq<Event>, raised: Option<string>)
    ensures Ticks(Emitted(f, events, raised)) ==
            Ticks(Forwarded(events, Total(f))) +
            (if f.phoneBound && Provisioned(events, raised) then [Tick(5, 5, "Sending welcome message")] else [])
  {
    TicksAppend(Forwarded(events, Total(f)), Closing(f, events, raised));
    TicksAppend(if f.phoneBound && Provisioned(events, raised)
        then [WELCOME] else [], [FinalOutcome(f, events, raised)]);
    assert Ticks([WELCOME]) == [Tick(5, 5, "Sending welcome message")];
  }

  /** A stream cut short anywhere never looks successful: the client shows some
      first part of the progress and reports the early end. */
  lemma CutShort(c: Codec, m: Messages, f: Flow, events: seq<Event>, raised: Option<string>, text: string)
    requires Lawful(c) && text < Concat(Printed(c, Emitted(f, events, raised)))
    ensures ReadText(c, m, text).verdict == Threw(m.ended)
    ensures ReadText(c, m, text).ticks <= ReadText(c, m, Concat(Printed(c, Emitted(f, events, raised)))).ticks
  {
    ReadEmitted(c, m, f, events, raised);
    var out := Emitted(f, events, raised);
    var n := PrefixLines(c, out, text);
    forall i | 0 <= i < n ensures !out[i].Outcome? {
      OneOutcomeLast(f, events, raised, i);
    }
    ReadPart(c, m, out, n);
  }

  lemma ReadPart(c: Codec, m: Messages, out: seq<Event>, n: nat)
    requires Lawful(c) && n <= |out| && forall i :: 0 <= i < n ==> !out[i].Outcome?
    ensures Read(c, m, Bare(c, out)[..n]) == View(Ticks(out[..n]), Running)
    ensures Ticks(out[..n]) <= Ticks(out)
  {
    assert Bare(c, out)[..n] == Bare(c, out[..n]);
    ReadPrinted(c, m, out[..n]);
    TicksAppend(out[..n], out[n..]);
    assert out == out[..n] + out[n..];
  }
}
