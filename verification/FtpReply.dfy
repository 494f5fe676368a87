/**
 Reading one reply of an FTP server (readReply in src/network/ftp/FtpClient.cpp): the bytes
 arrive in pieces, and after each piece the whole buffer is scanned again with the code
 found so far. Replies of several lines are those of section 4.2 of RFC 959; lines are
 trimmed of blanks first, which is this client's own rule.
 */
module FtpReply {
  import opened Prelude

  // ---- Lines -----------------------------------------------------------------------

  /** The blanks of Latin-1. */
  predicate IsSpace(c: char) { '\t' <= c <= '\r' || c == ' ' || c == '\U{85}' || c == '\U{A0}' }

  /** The first index from i on that is no blank, and the last end before which there is none. */
  function Start(s: string, i: nat): (r: nat)
    requires i <= |s|
    ensures i <= r <= |s|
    decreases |s| - i
  {
    if i < |s| && IsSpace(s[i]) then Start(s, i + 1) else i
  }

  function End(s: string, from: nat, i: nat): (r: nat)
    requires from <= i <= |s|
    ensures from <= r <= i
  {
    if from < i && IsSpace(s[i - 1]) then End(s, from, i - 1) else i
  }

  function Trimmed(s: string): string { s[Start(s, 0)..End(s, Start(s, 0), |s|)] }

  lemma {:induction false} StartFinds(s: string, i: nat)
    requires i <= |s|
    ensures (forall k :: i <= k < Start(s, i) ==> IsSpace(s[k])) && (Start(s, i) < |s| ==> !IsSpace(s[Start(s, i)]))
    decreases |s| - i
  {
    if i < |s| && IsSpace(s[i]) { StartFinds(s, i + 1); }
  }

  lemma {:induction false} EndFinds(s: string, from: nat, i: nat)
    requires from <= i <= |s|
    ensures (forall k :: End(s, from, i) <= k < i ==> IsSpace(s[k]))
            && (from < End(s, from, i) ==> !IsSpace(s[End(s, from, i) - 1]))
  {
    if from < i && IsSpace(s[i - 1]) { EndFinds(s, from, i - 1); }
  }

  /** Trimming takes blanks from both ends, all of them, and nothing else: s[i..j] is left. */
  lemma TrimmedIsTrimmed(s: string, i: nat, j: nat)
    requires i == Start(s, 0) && j == End(s, i, |s|)
    ensures Trimmed(s) == s[i..j]
    ensures forall k :: 0 <= k < i ==> IsSpace(s[k])
    ensures forall k :: j <= k < |s| ==> IsSpace(s[k])
    ensures i < j ==> !IsSpace(s[i]) && !IsSpace(s[j - 1])
  {
    StartFinds(s, 0);
    EndFinds(s, i, |s|);
  }

  /** The next line feed, or -1. */
  function IndexOf(buf: string, pos: nat): (e: int)
    requires pos <= |buf|
    ensures e == -1 || (pos <= e < |buf| && buf[e] == '\n')
    decreases |buf| - pos
  {
    if pos == |buf| then -1 else if buf[pos] == '\n' then pos else IndexOf(buf, pos + 1)
  }

  /** The complete lines of a buffer from an index on, each trimmed; what follows the last line feed is no line yet. */
  function LinesFrom(buf: string, pos: nat, trim: string -> string): seq<string>
    requires pos <= |buf|
    decreases |buf| - pos
  {
    var e := IndexOf(buf, pos);
    if e == -1 then [] else [trim(buf[pos..e])] + LinesFrom(buf, e + 1, trim)
  }

  function Lines(buf: string): seq<string> { LinesFrom(buf, 0, Trimmed) }

  lemma {:induction false} IndexOfFinds(buf: string, pos: nat)
    requires pos <= |buf|
    ensures forall k :: pos <= k < (if IndexOf(buf, pos) == -1 then |buf| else IndexOf(buf, pos)) ==> buf[k] != '\n'
    decreases |buf| - pos
  {
    if pos < |buf| && buf[pos] != '\n' { IndexOfFinds(buf, pos + 1); }
  }

  lemma {:induction false} IndexOfMore(a: string, b: string, pos: nat)
    requires pos <= |a| && IndexOf(a, pos) != -1
    ensures IndexOf(a + b, pos) == IndexOf(a, pos)
    decreases |a| - pos
  {
    assert (a + b)[pos] == a[pos];
    if a[pos] != '\n' { IndexOfMore(a, b, pos + 1); }
  }

  lemma SliceOfMore(a: string, b: string, i: nat, j: nat)
    requires i <= j <= |a|
    ensures (a + b)[i..j] == a[i..j]
  {}

  lemma OneMoreLine(line: string, a: seq<string>, b: seq<string>)
    requires a <= b
    ensures [line] + a <= [line] + b
  {}

  /** More bytes add lines and change none. */
  lemma {:induction false} LinesGrow(a: string, b: string, pos: nat, trim: string -> string)
    requires pos <= |a|
    ensures LinesFrom(a, pos, trim) <= LinesFrom(a + b, pos, trim)
    decreases |a| - pos
  {
    var e := IndexOf(a, pos);
    if e != -1 {
      IndexOfMore(a, b, pos);
      SliceOfMore(a, b, pos, e);
      LinesGrow(a, b, e + 1, trim);
      OneMoreLine(trim(a[pos..e]), LinesFrom(a, e + 1, trim), LinesFrom(a + b, e + 1, trim));
    }
  }

  // ---- One pass over the lines ------------------------------------------------------------

  predicate IsDigit(c: char) { '0' <= c <= '9' }

  predicate IsOpening(line: string) { |line| >= 4 && IsDigit(line[0]) && IsDigit(line[1]) && IsDigit(line[2]) }

  predicate IsCode(s: string) { |s| == 3 && IsDigit(s[0]) && IsDigit(s[1]) && IsDigit(s[2]) }

  predicate StartsWith(line: string, prefix: string) { |prefix| <= |line| && line[..|prefix|] == prefix }

  function Number(code: string): int
    requires |code| == 3
  {
    100 * (code[0] as int - '0' as int) + 10 * (code[1] as int - '0' as int) + (code[2] as int - '0' as int)
  }

  /** Where a scan ends: the code it knows ("" for none) and the reply, once decided. */
  datatype Progress = Progress(code: string, reply: Option<int>)

  function Scan(lines: seq<string>, code: string): Progress
    requires code == "" || IsCode(code)
  {
    if lines == [] then Progress(code, None)
    else
      var line := lines[0];
      if code == "" && IsOpening(line) then
        if line[3] != '-' then Progress(line[..3], Some(Number(line[..3]))) else Scan(lines[1..], line[..3])
      else if code != "" && StartsWith(line, code + " ") then Progress(code, Some(Number(code)))
      else Scan(lines[1..], code)
  }

  lemma ScanOne(line: string, rest: seq<string>, code: string)
    requires code == "" || IsCode(code)
    ensures Scan([line] + rest, code) ==
            if code == "" && IsOpening(line) then
              if line[3] != '-' then Progress(line[..3], Some(Number(line[..3]))) else Scan(rest, line[..3])
            else if code != "" && StartsWith(line, code + " ") then Progress(code, Some(Number(code)))
            else Scan(rest, code)
  {
    assert ([line] + rest)[1..] == rest;
  }

  lemma ClosingLooksLikeOpening(line: string, code: string)
    requires IsCode(code) && StartsWith(line, code + " ")
    ensures IsOpening(line) && line[3] == ' '
  {
    assert line[0] == (code + " ")[0] && line[1] == (code + " ")[1] && line[2] == (code + " ")[2]
           && line[3] == (code + " ")[3];
  }

  lemma {:induction false} ScanKeepsCode(lines: seq<string>, code: string)
    requires code == "" || IsCode(code)
    ensures var p := Scan(lines, code);
            && (p.code == "" || IsCode(p.code)) && (p.reply.Some? ==> p.code != "" && p.reply == Some(Number(p.code)))
            && (code != "" ==> p.code == code)
  {
    if lines != [] {
      var line := lines[0];
      if code == "" && IsOpening(line) {
        if line[3] == '-' { ScanKeepsCode(lines[1..], line[..3]); }
      } else {
        ScanKeepsCode(lines[1..], code);
      }
    }
  }

  /** A scan may stop anywhere and go on from there. */
  lemma {:induction false} ScanInTwoParts(a: seq<string>, b: seq<string>, code: string)
    requires code == "" || IsCode(code)
    ensures var p := Scan(a, code);
            && (p.code == "" || IsCode(p.code))
            && Scan(a + b, code) == if p.reply.Some? then p else Scan(b, p.code)
  {
    ScanKeepsCode(a, code);
    if a == [] {
      assert a + b == b;
    } else {
      var line := a[0];
      assert (a + b)[0] == line && (a + b)[1..] == a[1..] + b;
      if code == "" && IsOpening(line) {
        if line[3] == '-' { ScanInTwoParts(a[1..], b, line[..3]); }
      } else {
        ScanInTwoParts(a[1..], b, code);
      }
    }
  }

  /**
   Scanning undecided lines again, with the code they left, decides nothing: a line that
   would close the reply would have been an opening line, and the opening line has a dash
   where a closing one has a blank.
   */
  lemma {:induction false} RescanIsIdle(lines: seq<string>, code: string)
    requires code == "" || IsCode(code)
    requires Scan(lines, code).reply == None
    ensures var c := Scan(lines, code).code; (c == "" || IsCode(c)) && Scan(lines, c) == Progress(c, None)
  {
    ScanKeepsCode(lines, code);
    if lines != [] {
      var line, c := lines[0], Scan(lines, code).code;
      if code == "" && IsOpening(line) {
        RescanIsIdle(lines[1..], line[..3]);
        ScanKeepsCode(lines[1..], line[..3]);
        if StartsWith(line, c + " ") { ClosingLooksLikeOpening(line, c); }
      } else {
        RescanIsIdle(lines[1..], code);
        if code == "" && c != "" && StartsWith(line, c + " ") {
          ClosingLooksLikeOpening(line, c);
        }
      }
    }
  }

  // ---- What a reply is ------------------------------------------------------------------------

  predicate FirstOpening(lines: seq<string>, i: nat) {
    i < |lines| && IsOpening(lines[i]) && forall k :: 0 <= k < i ==> !IsOpening(lines[k])
  }

  predicate Closes(lines: seq<string>, code: string, j: nat, i: nat) {
    i < j < |lines| && StartsWith(lines[j], code + " ") && forall k :: i < k < j ==> !StartsWith(lines[k], code + " ")
  }

  /**
   Line i opens the reply and line j decides it: the same line, or the first later one that
   repeats the code and a blank.
   */
  predicate Decides(lines: seq<string>, i: nat, j: nat) {
    FirstOpening(lines, i) && if lines[i][3] != '-' then j == i else Closes(lines, lines[i][..3], j, i)
  }

  lemma {:induction false} ScanForClosing(lines: seq<string>, code: string, from: nat)
    requires IsCode(code) && from <= |lines|
    ensures var p := Scan(lines[from..], code);
            if p.reply.Some? then
              && p.reply == Some(Number(code))
              && exists j: nat :: from <= j < |lines| && StartsWith(lines[j], code + " ") &&
                                  forall k :: from <= k < j ==> !StartsWith(lines[k], code + " ")
            else forall k :: from <= k < |lines| ==> !StartsWith(lines[k], code + " ")
    decreases |lines| - from
  {
    if from < |lines| {
      assert lines[from..][0] == lines[from] && lines[from..][1..] == lines[from + 1..];
      if !StartsWith(lines[from], code + " ") {
        ScanForClosing(lines, code, from + 1);
      }
    }
  }

  lemma {:induction false} ScanForOpening(lines: seq<string>, from: nat)
    requires from <= |lines| && forall k :: 0 <= k < from ==> !IsOpening(lines[k])
    ensures var p := Scan(lines[from..], "");
            match p.reply
            case Some(n) => exists i: nat, j: nat :: Decides(lines, i, j) && n == Number(lines[i][..3])
            case None => forall i: nat, j: nat :: !Decides(lines, i, j)
    decreases |lines| - from
  {
    if from < |lines| {
      var line := lines[from];
      assert lines[from..][0] == line && lines[from..][1..] == lines[from + 1..];
      if IsOpening(line) {
        assert FirstOpening(lines, from);
        if line[3] != '-' {
          assert Decides(lines, from, from);
        } else {
          ScanForClosing(lines, line[..3], from + 1);
          if Scan(lines[from..], "").reply.Some? {
            var j: nat :| from + 1 <= j < |lines| && StartsWith(lines[j], line[..3] + " ")
                          && forall k :: from + 1 <= k < j ==> !StartsWith(lines[k], line[..3] + " ");
            assert Decides(lines, from, j);
          }
        }
      } else {
        ScanForOpening(lines, from + 1);
      }
    }
  }

  lemma OneOpening(lines: seq<string>, i: nat, j: nat)
    requires FirstOpening(lines, i) && FirstOpening(lines, j)
    ensures i == j
  {}

  /** One pass finds the reply exactly when some line decides it, and finds its code. */
  lemma ScanFindsTheReply(lines: seq<string>, n: int)
    ensures Scan(lines, "").reply == Some(n) <==>
              exists i: nat, j: nat :: Decides(lines, i, j) && n == Number(lines[i][..3])
  {
    ScanForOpening(lines, 0);
    assert lines[0..] == lines;
    forall i: nat, i2: nat | FirstOpening(lines, i) && FirstOpening(lines, i2) ensures i == i2 {
      OneOpening(lines, i, i2);
    }
  }

  // ---- The client ---------------------------------------------------------------------------

  function Concat(chunks: seq<string>): string {
    if chunks == [] then "" else Concat(chunks[..|chunks| - 1]) + chunks[|chunks| - 1]
  }

  lemma {:induction false} ConcatGrows(chunks: seq<string>, used: nat) returns (rest: string)
    requires used <= |chunks|
    ensures Concat(chunks) == Concat(chunks[..used]) + rest
    decreases |chunks|
  {
    if used == |chunks| {
      assert chunks[..used] == chunks;
      rest := "";
    } else {
      var front := chunks[..|chunks| - 1];
      rest := ConcatGrows(front, used);
      assert front[..used] == chunks[..used];
      rest := rest + chunks[|chunks| - 1];
    }
  }

  /** One scan of the buffer from its start, with the code of the scans before. */
  method ScanBuffer(buf: string, carried: string, trim: string -> string) returns (code: string, reply: Option<int>)
    requires carried == "" || IsCode(carried)
    ensures Progress(code, reply) == Scan(LinesFrom(buf, 0, trim), carried)
    ensures code == "" || IsCode(code)
  {
    code, reply := carried, None;
    var pos := 0;
    while pos < |buf|
      invariant 0 <= pos <= |buf| && (code == "" || IsCode(code))
      invariant Scan(LinesFrom(buf, 0, trim), carried) == Scan(LinesFrom(buf, pos, trim), code)
    {
      var eol := IndexOf(buf, pos);
      if eol < 0 { return; }
      var line := trim(buf[pos..eol]);
      ScanOne(line, LinesFrom(buf, eol + 1, trim), code);
      if code == "" && IsOpening(line) {
        code := line[..3];
        if line[3] != '-' { return code, Some(Number(code)); }
      } else if code != "" && StartsWith(line, code + " ") {
        return code, Some(Number(code));
      }
      pos := eol + 1;
    }
  }

  /**
   readReply over the pieces that arrive until the connection ends or time runs out. The
   code depends on the bytes alone and not on how they were cut into pieces, and it is
   returned with the very piece that completes the deciding line.
   */
  method ReadReply(chunks: seq<string>) returns (reply: Option<int>, used: nat)
    ensures reply == Scan(Lines(Concat(chunks)), "").reply
    ensures used <= |chunks| && (reply.None? ==> used == |chunks|)
    ensures reply.Some? ==> used > 0 && Scan(Lines(Concat(chunks[..used])), "").reply == reply
                            && Scan(Lines(Concat(chunks[..used - 1])), "").reply == None
  {
    var buf, code := "", "";
    used := 0;
    while used < |chunks|
      invariant used <= |chunks| && buf == Concat(chunks[..used])
      invariant (code == "" || IsCode(code)) && Scan(Lines(buf), "") == Progress(code, None)
    {
      ghost var before := buf;
      buf := buf + chunks[used];
      assert chunks[..used + 1][..used] == chunks[..used];
      RescanChangesNothing(before, chunks[used], code);
      used := used + 1;
      code, reply := ScanBuffer(buf, code, Trimmed);
      if reply.Some? {
        ghost var rest := ConcatGrows(chunks, used);
        MoreBytesChangeNothing(buf, rest);
        return;
      }
    }
    assert chunks[..used] == chunks;
    reply := None;
  }

  lemma RescanChangesNothing(buf: string, more: string, code: string)
    requires (code == "" || IsCode(code)) && Scan(Lines(buf), "") == Progress(code, None)
    ensures Scan(Lines(buf + more), code) == Scan(Lines(buf + more), "")
  {
    LinesGrow(buf, more, 0, Trimmed);
    var old', new' := Lines(buf), Lines(buf + more)[|Lines(buf)|..];
    assert Lines(buf + more) == old' + new';
    RescanIsIdle(old', "");
    ScanInTwoParts(old', new', "");
    ScanInTwoParts(old', new', code);
  }

  lemma MoreBytesChangeNothing(buf: string, more: string)
    requires Scan(Lines(buf), "").reply.Some?
    ensures Scan(Lines(buf + more), "") == Scan(Lines(buf), "")
  {
    LinesGrow(buf, more, 0, Trimmed);
    var rest := Lines(buf + more)[|Lines(buf)|..];
    assert Lines(buf + more) == Lines(buf) + rest;
    ScanInTwoParts(Lines(buf), rest, "");
  }
}
