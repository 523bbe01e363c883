/** String operations of the two runtimes: splitting and joining on a separator, ASCII
    letter case, and hexadecimal digits. Strings are sequences of characters; letter case
    is ASCII only. */
module Text {
  // -------------------------------------------------------------------------
  // Split and join
  // -------------------------------------------------------------------------

  function Join(parts: seq<string>, sep: char): string
    requires |parts| > 0
  {
    if |parts| == 1 then parts[0] else parts[0] + [sep] + Join(parts[1..], sep)
  }

  /** The pieces between separators; always at least one, possibly empty. */
  function Split(s: string, sep: char): (parts: seq<string>)
    ensures |parts| > 0
  {
    if s == "" then [""]
    else if s[0] == sep then [""] + Split(s[1..], sep)
    else
      var rest := Split(s[1..], sep);
      [[s[0]] + rest[0]] + rest[1..]
  }

  /** Joining undoes splitting. */
  lemma {:induction false} JoinSplit(s: string, sep: char)
    ensures Join(Split(s, sep), sep) == s
  {
    if s != "" {
      JoinSplit(s[1..], sep);
      var rest := Split(s[1..], sep);
      if s[0] == sep {
        assert Split(s, sep)[1..] == rest;
      } else {
        assert Split(s, sep)[1..] == rest[1..];
      }
    }
  }

  /** Splitting undoes joining when no piece contains the separator. */
  lemma {:induction false} SplitJoin(parts: seq<string>, sep: char)
    requires |parts| > 0
    requires forall p :: p in parts ==> sep !in p
    ensures Split(Join(parts, sep), sep) == parts
  {
    if |parts| == 1 {
      SplitPiece(parts[0], sep);
    } else {
      SplitJoin(parts[1..], sep);
      SplitHead(parts[0], Join(parts[1..], sep), sep);
      assert parts[0] + [sep] + Join(parts[1..], sep) == parts[0] + ([sep] + Join(parts[1..], sep));
    }
  }

  lemma {:induction false} SplitPiece(s: string, sep: char)
    requires sep !in s
    ensures Split(s, sep) == [s]
  {
    if s != "" {
      SplitPiece(s[1..], sep);
      assert [s[0]] + s[1..] == s;
    }
  }

  lemma {:induction false} SplitHead(head: string, tail: string, sep: char)
    requires sep !in head
    ensures Split(head + ([sep] + tail), sep) == [head] + Split(tail, sep)
  {
    var whole := head + ([sep] + tail);
    if head == "" {
      assert whole == [sep] + tail;
    } else {
      SplitHead(head[1..], tail, sep);
      assert whole[1..] == head[1..] + ([sep] + tail);
      assert [head[0]] + head[1..] == head;
    }
  }

  // -------------------------------------------------------------------------
  // Letter case and digits
  // -------------------------------------------------------------------------

  function LowerChar(c: char): char {
    if 'A' <= c <= 'Z' then (c as int + 32) as char else c
  }

  function Lower(s: string): (r: string)
    ensures |r| == |s|
    ensures forall i :: 0 <= i < |s| ==> r[i] == LowerChar(s[i])
  {
    seq(|s|, i requires 0 <= i < |s| => LowerChar(s[i]))
  }

  predicate IsDigit(c: char) {
    '0' <= c <= '9'
  }

  predicate AllDigits(s: string) {
    forall i :: 0 <= i < |s| ==> IsDigit(s[i])
  }

  predicate IsHexChar(c: char) {
    IsDigit(c) || 'a' <= c <= 'f' || 'A' <= c <= 'F'
  }

  predicate AllHex(s: string) {
    forall i :: 0 <= i < |s| ==> IsHexChar(s[i])
  }

  predicate HasPrefix(s: string, prefix: string) {
    prefix <= s
  }

  function TrimPrefix(s: string, prefix: string): string {
    if prefix <= s then s[|prefix|..] else s
  }

  predicate MatchesAt(s: string, piece: string, i: nat) {
    i + |piece| <= |s| && s[i..i + |piece|] == piece
  }

  predicate Contains(s: string, piece: string) {
    exists i: nat :: i <= |s| && MatchesAt(s, piece, i)
  }
}
