/** Dot-stuffing and the end of the mail data (section 4.5.2 of RFC 5321). */
module SmtpMessage {
  import opened Wrappers

  const CRLF := "\r\n"

  function Stuff(line: string): string {
    if |line| > 0 && line[0] == '.' then "." + line else line
  }

  /** Every line stuffed, joined by CRLF. */
  function Body(lines: seq<string>): string
    requires |lines| > 0
  {
    if |lines| == 1 then Stuff(lines[0]) else Stuff(lines[0]) + CRLF + Body(lines[1..])
  }

  predicate CrlfAt(s: string, i: nat) {
    i + 1 < |s| && s[i] == '\r' && s[i + 1] == '\n'
  }

  ghost predicate HasCrlf(s: string) {
    exists i: nat :: CrlfAt(s, i)
  }

  predicate EndsWithCrlf(s: string) {
    |s| >= 2 && CrlfAt(s, |s| - 2)
  }

  /** Everything between the DATA reply and the next one: the body, a CRLF if it lacks one, and the lone dot. */
  function Transmission(lines: seq<string>): string
    requires |lines| > 0
  {
    var body := Body(lines);
    body + (if EndsWithCrlf(body) then "" else CRLF) + "." + CRLF
  }

  function CrlfFrom(s: string, i: nat): (r: Option<nat>)
    ensures r.Some? ==> i <= r.value && CrlfAt(s, r.value) && forall j :: i <= j < r.value ==> !CrlfAt(s, j)
    ensures r.None? ==> forall j :: i <= j ==> !CrlfAt(s, j)
    decreases |s| - i
  {
    if i >= |s| then None else if CrlfAt(s, i) then Some(i) else CrlfFrom(s, i + 1)
  }

  function Unstuff(line: string): string {
    if |line| > 0 && line[0] == '.' then line[1..] else line
  }

  /**
   The receiver's side, from the standard: lines end at CRLF, a lone dot ends the data, a leading dot is removed. The
   result is the lines received and what is left of the stream, once the lone dot has come.
   */
  function Receive(s: string): Option<(seq<string>, string)>
    decreases |s|
  {
    match CrlfFrom(s, 0)
    case None => None
    case Some(n) =>
      if s[..n] == "." then Some(([], s[n + 2..]))
      else match Receive(s[n + 2..])
        case None => None
        case Some((lines, rest)) => Some(([Unstuff(s[..n])] + lines, rest))
  }

  /** The lines the sender means: a final empty line only stands for the last CRLF. */
  function Meant(lines: seq<string>): seq<string>
    requires |lines| > 0
  {
    if |lines| > 1 && lines[|lines| - 1] == "" then lines[..|lines| - 1] else lines
  }

  // ----- lines on the wire

  /** Each line stuffed and ended, then the lone dot. */
  function Wire(lines: seq<string>): string {
    if |lines| == 0 then "." + CRLF else Stuff(lines[0]) + CRLF + Wire(lines[1..])
  }

  ghost predicate AllPlain(lines: seq<string>) {
    forall i :: 0 <= i < |lines| ==> !HasCrlf(lines[i])
  }

  lemma StuffPlain(line: string)
    ensures HasCrlf(Stuff(line)) <==> HasCrlf(line)
    ensures Stuff(line) != "." && Unstuff(Stuff(line)) == line
  {
    if |line| > 0 && line[0] == '.' {
      PrefixPlain(".", line);
    }
  }

  /** A prefix without carriage returns brings no CRLF. */
  lemma PrefixPlain(p: string, s: string)
    requires '\r' !in p
    ensures HasCrlf(p + s) <==> HasCrlf(s)
  {
    forall k | 0 <= k < |p| ensures (p + s)[k] != '\r' {
      assert p[k] in p;
    }
    if HasCrlf(s) {
      var i: nat :| CrlfAt(s, i);
      assert CrlfAt(p + s, |p| + i);
    }
    if HasCrlf(p + s) {
      var i: nat :| CrlfAt(p + s, i);
      assert i >= |p|;
      assert CrlfAt(s, i - |p|);
    }
  }

  lemma FirstCrlfOfLine(line: string, rest: string)
    requires !HasCrlf(line)
    ensures var s := line + CRLF + rest;
      CrlfFrom(s, 0) == Some(|line|) && s[..|line|] == line && s[|line| + 2..] == rest
  {
    var s := line + CRLF + rest;
    assert s[|line|] == CRLF[0] && s[|line| + 1] == CRLF[1];
    assert CrlfAt(s, |line|);
    forall i: nat | i < |line| ensures !CrlfAt(s, i) {
      assert !CrlfAt(line, i);
    }
  }

  lemma {:induction false} ReceiveWire(lines: seq<string>)
    requires AllPlain(lines)
    ensures Receive(Wire(lines)) == Some((lines, ""))
  {
    if |lines| == 0 {
      FirstCrlfOfLine(".", "");
      assert "." + CRLF + "" == Wire(lines);
    } else {
      var line, rest := Stuff(lines[0]), Wire(lines[1..]);
      StuffPlain(lines[0]);
      FirstCrlfOfLine(line, rest);
      ReceiveWire(lines[1..]);
      assert lines == [lines[0]] + lines[1..];
    }
  }

  lemma {:induction false} BodyOfSnoc(lines: seq<string>)
    requires |lines| > 0
    ensures Body(lines + [""]) == Body(lines) + CRLF
    ensures Body(lines) + CRLF + "." + CRLF == Wire(lines)
  {
    var more := lines + [""];
    assert more[1..] == lines[1..] + [""];
    if |lines| == 1 {
      assert more[1..] == [""] && Wire(lines[1..]) == "." + CRLF;
      assert Body(more) == Stuff(lines[0]) + CRLF + "";
      assert Body(lines) + CRLF + "." + CRLF == Stuff(lines[0]) + CRLF + ("." + CRLF);
    } else {
      BodyOfSnoc(lines[1..]);
      var tail := Body(lines[1..]);
      assert Body(more) == Stuff(lines[0]) + CRLF + (tail + CRLF);
      assert Body(lines) + CRLF + "." + CRLF == Stuff(lines[0]) + CRLF + (tail + CRLF + "." + CRLF);
    }
  }

  /** The body ends in CRLF only when the last line is empty and not the only one. */
  lemma {:induction false} BodyEnd(lines: seq<string>)
    requires |lines| > 0 && AllPlain(lines)
    ensures EndsWithCrlf(Body(lines)) <==> |lines| > 1 && lines[|lines| - 1] == ""
    ensures Body(lines) == "" <==> lines == [""]
  {
    StuffPlain(lines[0]);
    if |lines| == 1 {
      assert EndsWithCrlf(Stuff(lines[0])) ==> HasCrlf(Stuff(lines[0]));
    } else {
      BodyEnd(lines[1..]);
      JoinedEnd(Stuff(lines[0]), Body(lines[1..]));
    }
  }

  lemma JoinedEnd(head: string, tail: string)
    ensures EndsWithCrlf(head + CRLF + tail) <==> tail == "" || EndsWithCrlf(tail)
  {
    var b := head + CRLF + tail;
    assert b[|head|] == CRLF[0] && b[|head| + 1] == CRLF[1];
    assert |tail| >= 1 ==> b[|b| - 1] == tail[|tail| - 1];
    assert |tail| >= 2 ==> b[|b| - 2] == tail[|tail| - 2];
  }

  lemma TransmissionIsWire(lines: seq<string>)
    requires |lines| > 0 && AllPlain(lines)
    ensures Transmission(lines) == Wire(Meant(lines))
  {
    BodyEnd(lines);
    if |lines| > 1 && lines[|lines| - 1] == "" {
      var init := lines[..|lines| - 1];
      assert lines == init + [""];
      BodyOfSnoc(init);
      assert Transmission(lines) == Body(init) + CRLF + "." + CRLF;
    } else {
      BodyOfSnoc(lines);
    }
  }

  /** No received line contains CRLF. */
  lemma {:induction false} ReceivedPlain(s: string)
    requires Receive(s).Some?
    ensures AllPlain(Receive(s).value.0)
    decreases |s|
  {
    var n := CrlfFrom(s, 0).value;
    if s[..n] != "." {
      ReceivedPlain(s[n + 2..]);
      UnstuffPlain(s, n);
    }
  }

  lemma UnstuffPlain(s: string, n: nat)
    requires n <= |s| && forall j :: 0 <= j < n ==> !CrlfAt(s, j)
    ensures !HasCrlf(Unstuff(s[..n]))
  {
    var line := s[..n];
    forall i: nat ensures !CrlfAt(Unstuff(line), i) {
      assert i < n ==> !CrlfAt(s, i);
      assert i + 1 < n ==> !CrlfAt(s, i + 1);
    }
  }

  lemma PlainWhenMeantIs(lines: seq<string>)
    requires |lines| > 0 && AllPlain(Meant(lines))
    ensures AllPlain(lines)
  {
    forall i | 0 <= i < |lines| ensures !HasCrlf(lines[i]) {
      if i < |Meant(lines)| {
        assert Meant(lines)[i] == lines[i];
      }
    }
  }

  // ----- main results

  /**
   For every list of lines: the receiver gets back exactly the lines that were meant, and the lone dot is the very end
   of what was sent, if and only if no line contains CRLF.
   */
  lemma RoundTripIffPlain(lines: seq<string>)
    requires |lines| > 0
    ensures Receive(Transmission(lines)) == Some((Meant(lines), "")) <==> AllPlain(lines)
  {
    if AllPlain(lines) {
      TransmissionIsWire(lines);
      forall i | 0 <= i < |Meant(lines)| ensures !HasCrlf(Meant(lines)[i]) {
        assert Meant(lines)[i] == lines[i];
      }
      ReceiveWire(Meant(lines));
    } else if Receive(Transmission(lines)) == Some((Meant(lines), "")) {
      ReceivedPlain(Transmission(lines));
      PlainWhenMeantIs(lines);
    }
  }

  const SUBJECT := "Subject: Reset your AKIS password"
  const MIME := "MIME-Version: 1.0"
  const CONTENT_TYPE := "Content-Type: text/plain; charset=utf-8"
  const GREETING := "Someone requested a password " + "reset for your AKIS account."
  const LINK := "Reset it here (link expires shortly): "
  const CLOSING := "If you did not request this, " + "you can safely ignore this email."

  function MailLines(from: string, to: string, resetUrl: string): seq<string> {
    ["From: " + from, "To: " + to, SUBJECT, MIME, CONTENT_TYPE, "", GREETING, "", LINK + resetUrl, "", CLOSING, ""]
  }

  lemma HeadersArePlain()
    ensures '\r' !in SUBJECT && '\r' !in MIME && '\r' !in CONTENT_TYPE
  {
  }

  lemma LinkIsPlain()
    ensures '\r' !in LINK
  {
  }

  lemma ProseIsPlain()
    ensures '\r' !in GREETING && '\r' !in CLOSING
  {
  }

  /** The reset mail arrives line for line, with nothing left over, exactly when no address or link contains CRLF. */
  lemma ResetMailArrives(from: string, to: string, resetUrl: string)
    ensures var lines := MailLines(from, to, resetUrl);
      Receive(Transmission(lines)) == Some((lines[..11], "")) <==> !HasCrlf(from) && !HasCrlf(to) && !HasCrlf(resetUrl)
  {
    var lines := MailLines(from, to, resetUrl);
    HeadersArePlain();
    LinkIsPlain();
    ProseIsPlain();
    PrefixPlain("From: ", from);
    PrefixPlain("To: ", to);
    PrefixPlain(LINK, resetUrl);
    NoCrPlain(SUBJECT);
    NoCrPlain(MIME);
    NoCrPlain(CONTENT_TYPE);
    NoCrPlain(GREETING);
    NoCrPlain(CLOSING);
    NoCrPlain("");
    MailPlain(from, to, resetUrl);
    RoundTripIffPlain(lines);
  }

  lemma MailPlain(from: string, to: string, resetUrl: string)
    requires !HasCrlf(SUBJECT) && !HasCrlf(MIME) && !HasCrlf(CONTENT_TYPE) && !HasCrlf(GREETING) && !HasCrlf(CLOSING) && !HasCrlf("")
    ensures AllPlain(MailLines(from, to, resetUrl)) <==>
            !HasCrlf("From: " + from) && !HasCrlf("To: " + to) && !HasCrlf(LINK + resetUrl)
  {
    var lines := MailLines(from, to, resetUrl);
    assert lines[0] == "From: " + from && lines[1] == "To: " + to && lines[8] == LINK + resetUrl;
  }

  // ----- what the receiver reads

  /** The value of the first header of this name, before the empty line that ends the headers. */
  function Header(lines: seq<string>, name: string): Option<string> {
    if |lines| == 0 || lines[0] == "" then None
    else
      var field := name + ": ";
      if field <= lines[0] then Some(lines[0][|field|..]) else Header(lines[1..], name)
  }

  /** The lines after the headers. */
  function Text(lines: seq<string>): seq<string> {
    if |lines| == 0 then [] else if lines[0] == "" then lines[1..] else Text(lines[1..])
  }

  lemma HeaderStep(lines: seq<string>, name: string, line: string, rest: seq<string>)
    requires lines == [line] + rest && line != ""
    ensures Header(lines, name) == if name + ": " <= line then Some(line[|name + ": "|..]) else Header(rest, name)
    ensures Text(lines) == Text(rest)
  {
  }

  /** The sender's address is read as `From`, the user's as `To`, and the link stands at the end of a line of the text. */
  lemma ResetMailReads(from: string, to: string, resetUrl: string)
    requires !HasCrlf(from) && !HasCrlf(to) && !HasCrlf(resetUrl)
    ensures Receive(Transmission(MailLines(from, to, resetUrl))).Some?
    ensures var lines := Receive(Transmission(MailLines(from, to, resetUrl))).value.0;
      && Header(lines, "From") == Some(from) && Header(lines, "To") == Some(to)
      && Header(lines, "Subject").Some?
      && Text(lines) == [GREETING, "", LINK + resetUrl, "", CLOSING]
  {
    ResetMailArrives(from, to, resetUrl);
    var text := [GREETING, "", LINK + resetUrl, "", CLOSING];
    var head := [SUBJECT, MIME, CONTENT_TYPE, ""];
    assert MailLines(from, to, resetUrl)[..11] == ["From: " + from] + (["To: " + to] + (head + text));
    HeadersRead(from, to, text);
  }

  lemma HeadersRead(from: string, to: string, text: seq<string>)
    ensures var lines := ["From: " + from] + (["To: " + to] + ([SUBJECT, MIME, CONTENT_TYPE, ""] + text));
      && Header(lines, "From") == Some(from) && Header(lines, "To") == Some(to) && Header(lines, "Subject").Some?
      && Text(lines) == text
  {
    var f, t, rest := "From: " + from, "To: " + to, [SUBJECT, MIME, CONTENT_TYPE, ""] + text;
    var lines := [f] + ([t] + rest);
    assert "From" + ": " == "From: " && "To" + ": " == "To: ";
    assert f[0] == 'F' && t[0] == 'T' && SUBJECT[0] == 'S';
    HeaderStep(lines, "From", f, [t] + rest);
    HeaderStep(lines, "To", f, [t] + rest);
    HeaderStep([t] + rest, "To", t, rest);
    HeaderStep(lines, "Subject", f, [t] + rest);
    HeaderStep([t] + rest, "Subject", t, rest);
    HeadRead(text);
  }

  lemma HeadRead(text: seq<string>)
    ensures var rest := [SUBJECT, MIME, CONTENT_TYPE, ""] + text;
      Header(rest, "Subject").Some? && Text(rest) == text
  {
    var r3 := [""] + text;
    var r2 := [CONTENT_TYPE] + r3;
    var r1 := [MIME] + r2;
    var rest := [SUBJECT, MIME, CONTENT_TYPE, ""] + text;
    assert rest == [SUBJECT] + r1;
    assert "Subject" + ": " <= SUBJECT;
    HeaderStep(rest, "Subject", SUBJECT, r1);
    HeaderStep(r1, "Subject", MIME, r2);
    HeaderStep(r2, "Subject", CONTENT_TYPE, r3);
    assert r3[1..] == text;
  }

  lemma NoCrPlain(s: string)
    requires '\r' !in s
    ensures !HasCrlf(s)
  {
    forall i: nat ensures !CrlfAt(s, i) {
      assert i < |s| ==> s[i] in s;
    }
  }
}
