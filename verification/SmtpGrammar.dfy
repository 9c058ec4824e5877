/**
 What a reply is, independently of the framing loop: lines that end in a line feed, all but the last without, the last
 with a three-digit code followed by a space (section 4.2.1 of RFC 5321).
 */
module SmtpGrammar {
  import opened Wrappers
  import opened SmtpReplies

  /** One line with its single, trailing line feed. */
  predicate IsLine(l: string) {
    |l| > 0 && l[|l| - 1] == '\n' && forall i :: 0 <= i < |l| - 1 ==> l[i] != '\n'
  }

  /** `ddd` and then the separator: '-' before more lines, ' ' on the last one. */
  predicate HasCode(l: string, separator: char) {
    |l| >= 4 && IsDigit(l[0]) && IsDigit(l[1]) && IsDigit(l[2]) && l[3] == separator
  }

  /** Lines none of which is a last one. */
  predicate Continues(cont: seq<string>) {
    forall i :: 0 <= i < |cont| ==> IsLine(cont[i]) && !HasCode(cont[i], ' ')
  }

  datatype Reply = Reply(cont: seq<string>, last: string) {
    function Text(): string {
      Concat(cont) + last
    }

    /** As the standard has it: continuation lines carry the code and a dash. */
    predicate Standard() {
      IsLine(last) && HasCode(last, ' ') && forall i :: 0 <= i < |cont| ==> IsLine(cont[i]) && HasCode(cont[i], '-')
    }

    /** As the socket takes it: a continuation line is any line that is not a last one. */
    predicate Lenient() {
      IsLine(last) && HasCode(last, ' ') && Continues(cont)
    }
  }

  function ReplyTexts(rs: seq<Reply>): (r: seq<string>)
    ensures |r| == |rs| && forall i :: 0 <= i < |r| ==> r[i] == rs[i].Text()
  {
    seq(|rs|, i requires 0 <= i < |rs| => rs[i].Text())
  }

  // ----- the loop on lines

  lemma {:induction false} NewlineIs(s: string, offset: nat, nl: nat)
    requires offset <= nl < |s| && s[nl] == '\n' && forall i :: offset <= i < nl ==> s[i] != '\n'
    ensures NewlineFrom(s, offset) == Some(nl)
    decreases nl - offset
  {
    if offset < nl {
      NewlineIs(s, offset + 1, nl);
    }
  }

  lemma {:induction false} NoNewline(s: string, offset: nat)
    requires offset <= |s| && forall i :: offset <= i < |s| ==> s[i] != '\n'
    ensures NewlineFrom(s, offset) == None
    decreases |s| - offset
  {
    if offset < |s| {
      NoNewline(s, offset + 1);
    }
  }

  /** `part` is what `s` has at `offset`. */
  predicate StandsAt(s: string, offset: nat, part: string) {
    offset + |part| <= |s| && forall i :: 0 <= i < |part| ==> s[offset + i] == part[i]
  }

  /** The loop at the start of a line: it stops after a last line and goes on after any other. */
  lemma LineStep(s: string, offset: nat, line: string)
    requires IsLine(line) && StandsAt(s, offset, line)
    ensures ReplyEndFrom(s, offset) ==
            if HasCode(line, ' ') then Some(offset + |line|) else ReplyEndFrom(s, offset + |line|)
  {
    forall i | offset <= i < offset + |line| - 1 ensures s[i] != '\n' {
      assert s[offset + (i - offset)] == line[i - offset];
    }
    NewlineIs(s, offset, offset + |line| - 1);
    assert |line| >= 4 ==> s[offset + 3] == line[3];
  }

  lemma ContinuesHead(cont: seq<string>)
    requires Continues(cont) && |cont| > 0
    ensures IsLine(cont[0]) && !HasCode(cont[0], ' ') && Continues(cont[1..])
    ensures Concat(cont) == cont[0] + Concat(cont[1..])
  {
  }

  lemma {:induction false} SkipsLines(s: string, offset: nat, cont: seq<string>)
    requires Continues(cont) && StandsAt(s, offset, Concat(cont))
    ensures ReplyEndFrom(s, offset) == ReplyEndFrom(s, offset + |Concat(cont)|)
    decreases |cont|
  {
    if |cont| > 0 {
      var line, rest := cont[0], Concat(cont[1..]);
      ContinuesHead(cont);
      SplitAt(s, offset, line, rest);
      LineStep(s, offset, line);
      SkipsLines(s, offset + |line|, cont[1..]);
    }
  }

  lemma SplitAt(s: string, offset: nat, a: string, b: string)
    requires StandsAt(s, offset, a + b)
    ensures StandsAt(s, offset, a) && StandsAt(s, offset + |a|, b)
  {
    forall i | 0 <= i < |a| ensures s[offset + i] == a[i] {
      assert (a + b)[i] == a[i];
    }
    forall i | 0 <= i < |b| ensures s[offset + |a| + i] == b[i] {
      assert (a + b)[|a| + i] == b[i];
    }
  }

  lemma WholeStands(a: string, b: string)
    ensures StandsAt(a + b, 0, a) && StandsAt(a + b, |a|, b)
  {
    SplitAt(a + b, 0, a, b);
  }

  /** Lines that are no last line, then one that is: the loop ends just behind it. */
  lemma EndsAfterLast(s: string, cont: seq<string>, last: string)
    requires Continues(cont) && IsLine(last) && HasCode(last, ' ')
    requires StandsAt(s, 0, Concat(cont)) && StandsAt(s, |Concat(cont)|, last)
    ensures ReplyEndFrom(s, 0) == Some(|Concat(cont)| + |last|)
  {
    SkipsLines(s, 0, cont);
    LineStep(s, |Concat(cont)|, last);
  }

  lemma LenientIsReply(r: Reply)
    requires r.Lenient()
    ensures IsReply(r.Text())
  {
    WholeStands(Concat(r.cont), r.last);
    EndsAfterLast(r.Text(), r.cont, r.last);
  }

  lemma StandardIsLenient(r: Reply)
    requires r.Standard()
    ensures r.Lenient()
  {
  }

  lemma {:induction false} NewlineIsFirst(s: string, offset: nat)
    requires offset <= |s| && NewlineFrom(s, offset).Some?
    ensures forall i :: offset <= i < NewlineFrom(s, offset).value ==> s[i] != '\n'
    decreases |s| - offset
  {
    if s[offset] != '\n' {
      NewlineIsFirst(s, offset + 1);
    }
  }

  lemma PrependLine(line: string, rest: Reply)
    requires IsLine(line) && !HasCode(line, ' ') && rest.Lenient()
    ensures var r := Reply([line] + rest.cont, rest.last); r.Lenient() && r.Text() == line + rest.Text()
  {
    assert ([line] + rest.cont)[1..] == rest.cont;
    assert line + Concat(rest.cont) + rest.last == line + (Concat(rest.cont) + rest.last);
  }

  lemma FirstLine(s: string, offset: nat)
    requires offset <= |s| && NewlineFrom(s, offset).Some?
    ensures var nl := NewlineFrom(s, offset).value;
      IsLine(s[offset..nl + 1]) && (HasCode(s[offset..nl + 1], ' ') <==> IsFinalLine(s, offset, nl))
  {
    NewlineIsFirst(s, offset);
  }

  lemma JoinAt(s: string, from: nat, mid: nat, to: nat)
    requires from <= mid <= to <= |s|
    ensures s[from..to] == s[from..mid] + s[mid..to]
  {
  }

  /** Whatever the loop frames has that form. */
  lemma {:induction false} FramedIsLenient(s: string, offset: nat) returns (r: Reply)
    requires offset <= |s| && ReplyEndFrom(s, offset).Some?
    ensures r.Lenient() && r.Text() == s[offset..ReplyEndFrom(s, offset).value]
    decreases |s| - offset
  {
    var nl := NewlineFrom(s, offset).value;
    var line := s[offset..nl + 1];
    FirstLine(s, offset);
    if IsFinalLine(s, offset, nl) {
      r := Reply([], line);
    } else {
      var rest := FramedIsLenient(s, nl + 1);
      r := Reply([line] + rest.cont, rest.last);
      PrependLine(line, rest);
      JoinAt(s, offset, nl + 1, ReplyEndFrom(s, offset).value);
    }
  }

  /** A tail without a complete reply: continuation lines and a line that has not ended. */
  predicate IsUnfinished(cont: seq<string>, part: string) {
    '\n' !in part && Continues(cont)
  }

  lemma UnfinishedHasNoReply(cont: seq<string>, part: string)
    requires IsUnfinished(cont, part)
    ensures Replies(Concat(cont) + part) == []
  {
    var s, k := Concat(cont) + part, |Concat(cont)|;
    assert StandsAt(s, 0, Concat(cont));
    SkipsLines(s, 0, cont);
    forall i | k <= i < |s| ensures s[i] != '\n' {
      assert s[i] == part[i - k] && part[i - k] in part;
    }
    NoNewline(s, k);
  }

  // ----- main results

  /** The socket frames exactly the texts of this form: lines that are no last line, then a last line. */
  lemma FramingIsTheGrammar(s: string)
    ensures IsReply(s) <==> exists r: Reply :: r.Lenient() && r.Text() == s
  {
    if IsReply(s) {
      var r := FramedIsLenient(s, 0);
      assert s[0..|s|] == s;
      assert r.Lenient() && r.Text() == s;
    }
    if r: Reply :| r.Lenient() && r.Text() == s {
      LenientIsReply(r);
    }
  }

  /**
   A server that sends replies of the standard's multi-line form, and perhaps part of one more: while nothing fails, the
   i-th `readReply` gets the text of the i-th of them, whatever the chunks, and as many are answered as there are both.
   */
  lemma EachReadGetsTheServersReply(es: seq<Input>, sent: seq<Reply>, cont: seq<string>, part: string)
    requires NoFailure(es) && (forall i :: 0 <= i < |sent| ==> sent[i].Standard()) && IsUnfinished(cont, part)
    requires Received(es) == Concat(ReplyTexts(sent)) + (Concat(cont) + part)
    ensures var k := RunFrom(es);
      && |k.resolved| == (if ReadCount(es) <= |sent| then ReadCount(es) else |sent|)
      && forall i :: 0 <= i < |k.resolved| ==> k.resolved[i] == (i, sent[i].Text())
  {
    var texts := ReplyTexts(sent);
    forall i | 0 <= i < |texts| ensures IsReply(texts[i]) {
      StandardIsLenient(sent[i]);
      LenientIsReply(sent[i]);
    }
    UnfinishedHasNoReply(cont, part);
    RepliesOfConcat(texts, Concat(cont) + part);
    EachReadGetsItsReply(es);
  }

  /** The standard also allows a last line of the code alone; the socket keeps waiting for such a reply. */
  lemma BareCodeIsNotFramed()
    ensures Replies("250\r\n") == []
  {
    NewlineIs("250\r\n", 0, 4);
    NoNewline("250\r\n", 5);
  }
}
