/** Reading replies from an SMTP server: section 4.2 of RFC 5321. */
module SmtpSession {
  import opened Basics
  import opened Decimals
  import opened Smtp

  const LIMIT := 64 * 1024

  datatype Line = Line(text: string) | Closed | TooLarge

  datatype Result = Allowed | Rejected(code: int) | Invalid | Lost(why: Line)

  function Concat(chunks: seq<string>): string {
    if |chunks| == 0 then "" else chunks[0] + Concat(chunks[1..])
  }

  /** The position of the first line break, or the length if there is none. */
  method FindBreak(s: string) returns (n: nat)
    ensures n <= |s| && Unbroken(s[..n])
    ensures n < |s| ==> CRLF <= s[n..]
    ensures n == |s| ==> Unbroken(s)
  {
    n := 0;
    while n < |s|
      invariant n <= |s|
      invariant forall i | 0 <= i < n && i < |s| - 1 :: !(s[i] == '\r' && s[i + 1] == '\n')
    {
      if n + 1 < |s| && s[n] == '\r' && s[n + 1] == '\n' {
        assert s[n..][..2] == CRLF;
        return;
      }
      n := n + 1;
    }
    assert s[..n] == s;
  }

  // ------------------------------------------------------------------ what is a reply

  predicate StartsWith(line: string, prefix: string) {
    prefix <= line
  }

  /** How many lines are skipped before one that begins with `terminator`. */
  function Skipped(lines: seq<string>, terminator: string): nat {
    if |lines| == 0 || StartsWith(lines[0], terminator) then 0 else 1 + Skipped(lines[1..], terminator)
  }

  function Take(s: string, n: nat): string {
    if |s| < n then s else s[..n]
  }

  /** How strings become numbers and numbers strings: what reply codes need of it. */
  datatype Conversions = Conversions(number: string -> Option<int>, text: int -> string)

  function Digits(code: nat): string
    requires 100 <= code < 1000
  {
    [DigitOf(code / 100), DigitOf(code / 10 % 10), DigitOf(code % 10)]
  }

  lemma DigitsSpell(code: nat)
    requires 100 <= code < 1000
    ensures AllDigits(Digits(code)) && ValueOf(Digits(code)) == code
  {
    var s := Digits(code);
    assert s[..2][..1] == s[..1] && s[..1][..0] == "";
    assert ValueOf(s[..1]) == code / 100;
    assert ValueOf(s[..2]) == code / 10;
  }

  ghost predicate Decimal(c: Conversions) {
    forall code: nat | 100 <= code < 1000 :: c.number(Digits(code)) == Some(code) && c.text(code) == Digits(code)
  }

  /** How many lines one `expect` reads from a stream: all of a multi-line reply up to
      the line with the code and a space. */
  function Extent(c: Conversions, lines: seq<string>): nat {
    if |lines| == 0 then 0
    else
      var code := c.number(Take(lines[0], 3));
      if code.None? || |lines[0]| <= 3 || lines[0][3] != '-' then 1
      else Skipped(lines, c.text(code.value) + " ") + 1
  }

  class Session {
    const conversions: Conversions
    var buffer: string
    /** What the server will still send, as it will arrive. */
    var chunks: seq<string>

    constructor (conversions: Conversions, chunks: seq<string>)
      ensures this.conversions == conversions && this.chunks == chunks && buffer == ""
    {
      this.conversions, this.chunks, buffer := conversions, chunks, "";
    }

    ghost function Stream(): string
      reads this
    {
      buffer + Concat(chunks)
    }

    /** The next line of the stream, however it is cut into chunks. */
    method ReadLine() returns (line: Line)
      modifies this
      ensures line.Line? ==> |Split(old(Stream()))| > 1 && Split(old(Stream())) == [line.text] + Split(Stream())
      ensures line.Closed? ==> Stream() == old(Stream()) && |Split(Stream())| == 1 && chunks == []
      ensures line.TooLarge? ==> Stream() == old(Stream()) && |buffer| > LIMIT && |chunks| < |old(chunks)|
      ensures |chunks| <= |old(chunks)|
      ensures line.Line? && |chunks| < |old(chunks)| ==> |line.text| + 2 + |buffer| <= LIMIT
      ensures line.Closed? && old(chunks) != [] ==> |buffer| <= LIMIT
    {
      while true
        invariant Stream() == old(Stream())
        invariant |chunks| <= |old(chunks)| && (|chunks| < |old(chunks)| ==> |buffer| <= LIMIT)
        decreases |chunks|
      {
        var lineEnd := FindBreak(buffer);
        if lineEnd < |buffer| {
          var text := buffer[..lineEnd];
          ghost var rest := buffer[lineEnd + 2..];
          assert buffer == text + CRLF + rest;
          assert Stream() == text + CRLF + (rest + Concat(chunks));
          SplitAppend(text, rest + Concat(chunks));
          buffer := buffer[lineEnd + 2..];
          return Line(text);
        }
        if |chunks| == 0 {
          assert Stream() == buffer;
          SplitUnbroken(buffer);
          return Closed;
        }
        assert buffer + chunks[0] + Concat(chunks[1..]) == buffer + Concat(chunks);
        buffer, chunks := buffer + chunks[0], chunks[1..];
        if |buffer| > LIMIT { return TooLarge; }
      }
    }

    /** Reads one reply and checks its code. */
    method Expect(allowed: set<int>) returns (r: Result)
      modifies this
      ensures r.Allowed? || r.Rejected? ==>
                var lines := Split(old(Stream()));
                && Extent(conversions, lines) < |lines|
                && Split(Stream()) == lines[Extent(conversions, lines)..]
                && var code := conversions.number(Take(lines[0], 3));
                   code.Some? && (r.Allowed? <==> code.value in allowed) && (r.Rejected? ==> r.code == code.value)
      ensures r.Invalid? ==> conversions.number(Take(Split(old(Stream()))[0], 3)).None?
      ensures r.Lost? && r.why.Closed? ==> Extent(conversions, Split(old(Stream()))) >= |Split(old(Stream()))|
      ensures r.Lost? && r.why.TooLarge? ==> |buffer| > LIMIT
      ensures r.Lost? ==> !r.why.Line?
    {
      hide Split, Concat;
      ghost var lines := Split(Stream());
      var read := ReadLine();
      if !read.Line? { return Lost(read); }
      var first := read.text;
      var code := conversions.number(Take(first, 3));
      if code.None? { return Invalid; }
      if |first| > 3 && first[3] == '-' {
        read := SkipTo(first, conversions.text(code.value) + " ", lines);
        if !read.Line? { return Lost(read); }
      }
      r := if code.value in allowed then Allowed else Rejected(code.value);
    }

    /** Reads on until a line begins with the terminator; `first` has been read. */
    method SkipTo(first: string, terminator: string, ghost lines: seq<string>) returns (last: Line)
      requires lines == [first] + Split(Stream())
      modifies this
      ensures last.Line? ==>
                Skipped(lines, terminator) + 1 < |lines| && Split(Stream()) == lines[Skipped(lines, terminator) + 1..]
      ensures last.Closed? ==> Skipped(lines, terminator) + 1 >= |lines|
      ensures last.TooLarge? ==> |buffer| > LIMIT
    {
      hide Split, Concat;
      ghost var n := 1;
      last := Line(first);
      assert lines[0..] == lines;
      while !StartsWith(last.text, terminator)
        invariant last.Line? && 1 <= n < |lines| && last.text == lines[n - 1] && Split(Stream()) == lines[n..]
        invariant n - 1 + Skipped(lines[n - 1..], terminator) == Skipped(lines, terminator)
        decreases |lines| - n
      {
        assert lines[n - 1..][1..] == lines[n..];
        last := ReadLine();
        if !last.Line? { return; }
        n := n + 1;
      }
    }
  }

  // ------------------------------------------------------------------- whole replies

  /** A reply as the grammar of section 4.2 allows it: any number of continuation
      lines, and a last line whose space and text may be missing. */
  datatype Reply = Reply(code: nat, more: seq<string>, last: Option<string>)

  predicate WellFormed(r: Reply) {
    100 <= r.code < 1000 && AllUnbroken(r.more) && (r.last.Some? ==> Unbroken(r.last.value))
  }

  function LastLine(r: Reply): string
    requires 100 <= r.code < 1000
  {
    Digits(r.code) + if r.last.Some? then " " + r.last.value else ""
  }

  function ReplyLines(r: Reply): seq<string>
    requires 100 <= r.code < 1000
    decreases |r.more|
  {
    if |r.more| == 0 then [LastLine(r)]
    else [Digits(r.code) + "-" + r.more[0]] + ReplyLines(r.(more := r.more[1..]))
  }

  /** The last line of a multi-line reply has its space. */
  predicate Terminated(r: Reply) {
    |r.more| > 0 ==> r.last.Some?
  }

  lemma {:induction false} SkippedReply(r: Reply, rest: seq<string>)
    requires WellFormed(r)
    ensures var n := Skipped(ReplyLines(r) + rest, Digits(r.code) + " ");
            if r.last.Some? then n == |ReplyLines(r)| - 1 else n >= |ReplyLines(r)|
    decreases |r.more|
  {
    var lines := ReplyLines(r) + rest;
    var terminator := Digits(r.code) + " ";
    assert terminator[3] == ' ';
    if |r.more| == 0 {
      assert lines[0] == LastLine(r);
      if r.last.Some? { assert LastLine(r)[..4] == terminator; }
    } else {
      assert lines[0][3] == '-';
      var shorter := r.(more := r.more[1..]);
      assert lines[1..] == ReplyLines(shorter) + rest;
      SkippedReply(shorter, rest);
    }
  }

  /** One `expect` reads exactly one reply, whatever follows it, if and only if the reply
      is a single line or its last line has the space after the code. */
  lemma ExpectReadsOneReply(c: Conversions, r: Reply, rest: seq<string>)
    requires Decimal(c) && WellFormed(r)
    ensures Extent(c, ReplyLines(r) + rest) == |ReplyLines(r)| <==> Terminated(r)
    ensures c.number(Take((ReplyLines(r) + rest)[0], 3)) == Some(r.code)
  {
    var lines := ReplyLines(r) + rest;
    assert Take(lines[0], 3) == Digits(r.code);
    if |r.more| == 0 {
      assert lines[0] == LastLine(r);
    } else {
      assert lines[0][3] == '-';
      SkippedReply(r, rest);
    }
  }

  /** A multi-line reply that ends in its bare code swallows the reply after it. */
  lemma BareLastLineIsOverrun(c: Conversions)
    requires Decimal(c)
    ensures var first, second := ReplyLines(Reply(250, ["ready"], None)), ReplyLines(Reply(354, [], Some("go")));
            Extent(c, first + second) > |first + second|
  {
    var first, second := Reply(250, ["ready"], None), Reply(354, [], Some("go"));
    var terminator := Digits(250) + " ";
    var lines := ReplyLines(first) + ReplyLines(second);
    var bare := first.(more := first.more[1..]);
    assert ReplyLines(bare) == [LastLine(bare)] && LastLine(bare) == Digits(250);
    assert ReplyLines(first) == [Digits(250) + "-" + "ready"] + ReplyLines(bare);
    assert lines == [Digits(250) + "-" + "ready", Digits(250), LastLine(second)];
    assert Take(lines[0], 3) == Digits(250);
    assert lines[0][3] == '-' && terminator[3] == ' ' && lines[2][0] == '3' && terminator[0] == '2';
    assert lines[1..][1..] == [lines[2]] && [lines[2]][1..] == [];
    assert Skipped([lines[2]], terminator) == 1;
    assert Skipped(lines[1..], terminator) == 2;
  }

  function AllLines(replies: seq<Reply>): seq<string>
    requires forall i | 0 <= i < |replies| :: WellFormed(replies[i])
  {
    if |replies| == 0 then []
    else
      assert WellFormed(replies[0]);
      ReplyLines(replies[0]) + AllLines(replies[1..])
  }

  /** Every line with its line break. */
  function Wire(lines: seq<string>): string {
    if |lines| == 0 then "" else lines[0] + CRLF + Wire(lines[1..])
  }

  lemma {:induction false} SplitWire(lines: seq<string>)
    requires AllUnbroken(lines)
    ensures Split(Wire(lines)) == lines + [""]
  {
    if |lines| > 0 {
      SplitWire(lines[1..]);
      SplitAppend(lines[0], Wire(lines[1..]));
    }
  }

  lemma PrefixedIsUnbroken(prefix: string, s: string)
    requires Unbroken(s) && forall i | 0 <= i < |prefix| :: prefix[i] != '\r'
    ensures Unbroken(prefix + s)
  {
    var all := prefix + s;
    forall i | 0 <= i < |all| - 1 ensures !(all[i] == '\r' && all[i + 1] == '\n') {
      if i >= |prefix| { assert all[i] == s[i - |prefix|] && all[i + 1] == s[i + 1 - |prefix|]; }
    }
  }

  lemma {:induction false} ReplyIsUnbroken(r: Reply)
    requires WellFormed(r)
    ensures AllUnbroken(ReplyLines(r))
    decreases |r.more|
  {
    if |r.more| > 0 {
      var shorter := r.(more := r.more[1..]);
      ReplyIsUnbroken(shorter);
      PrefixedIsUnbroken(Digits(r.code) + "-", r.more[0]);
    } else if r.last.Some? {
      PrefixedIsUnbroken(Digits(r.code) + " ", r.last.value);
      assert LastLine(r) == Digits(r.code) + " " + r.last.value;
    }
  }

  lemma {:induction false} AllUnbrokenLines(replies: seq<Reply>)
    requires forall i | 0 <= i < |replies| :: WellFormed(replies[i])
    ensures AllUnbroken(AllLines(replies))
  {
    if |replies| > 0 {
      ReplyIsUnbroken(replies[0]);
      AllUnbrokenLines(replies[1..]);
    }
  }

  /** However the server's replies arrive, the k-th `expect` sees the k-th reply, until all
      are read or more than the limit is buffered at once. */
  method Converse(session: Session, replies: seq<Reply>, allowed: seq<set<int>>) returns (results: seq<Result>)
    requires Decimal(session.conversions) && |allowed| == |replies|
    requires forall i | 0 <= i < |replies| :: WellFormed(replies[i]) && Terminated(replies[i])
    requires session.Stream() == Wire(AllLines(replies))
    modifies session
    ensures |results| <= |replies|
    ensures forall i | 0 <= i < |results| ::
              results[i] == if replies[i].code in allowed[i] then Allowed else Rejected(replies[i].code)
    ensures |results| < |replies| ==> |session.buffer| > LIMIT
  {
    hide Split, Wire, Concat, Extent, ReplyLines, Decimal;
    results := [];
    AllUnbrokenLines(replies);
    SplitWire(AllLines(replies));
    for k := 0 to |replies|
      invariant |results| == k
      invariant Split(session.Stream()) == AllLines(replies[k..]) + [""]
      invariant forall i | 0 <= i < k ::
                  results[i] == if replies[i].code in allowed[i] then Allowed else Rejected(replies[i].code)
    {
      var r := replies[k];
      ghost var rest := AllLines(replies[k + 1..]) + [""];
      assert replies[k..][0] == r && replies[k..][1..] == replies[k + 1..];
      assert AllLines(replies[k..]) + [""] == ReplyLines(r) + rest;
      ExpectReadsOneReply(session.conversions, r, rest);
      var result := session.Expect(allowed[k]);
      if result.Lost? { return; }
      assert (ReplyLines(r) + rest)[|ReplyLines(r)|..] == rest;
      results := results + [result];
    }
  }
}
