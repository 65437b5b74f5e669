/** The string operations that names, routes and device listings are parsed with. Case mapping
    is ASCII; characters outside it are left alone. */
module Text {
  import opened Records

  function Lower(c: char): char {
    if 'A' <= c <= 'Z' then (c as int + 32) as char else c
  }

  function Upper(c: char): char {
    if 'a' <= c <= 'z' then (c as int - 32) as char else c
  }

  function ToLower(s: string): (r: string)
    ensures |r| == |s| && forall i :: 0 <= i < |s| ==> r[i] == Lower(s[i])
  {
    seq(|s|, i requires 0 <= i < |s| => Lower(s[i]))
  }

  function ToUpper(s: string): (r: string)
    ensures |r| == |s| && forall i :: 0 <= i < |s| ==> r[i] == Upper(s[i])
  {
    seq(|s|, i requires 0 <= i < |s| => Upper(s[i]))
  }

  predicate HasSuffix(s: string, suffix: string) {
    |suffix| <= |s| && s[|s| - |suffix|..] == suffix
  }

  /** Drops one trailing dot, if there is one. */
  function TrimDot(s: string): string {
    if |s| > 0 && s[|s| - 1] == '.' then s[..|s| - 1] else s
  }

  /** The position of the first `c`, or the length. */
  function IndexOf(s: string, c: char): (n: nat)
    ensures n <= |s| && c !in s[..n] && (n < |s| ==> s[n] == c)
  {
    if |s| == 0 || s[0] == c then 0
    else
      var n := 1 + IndexOf(s[1..], c);
      assert s[..n] == [s[0]] + s[1..][..n - 1];
      n
  }

  datatype Pair = Pair(before: string, after: string)

  /** Splits at the first `c`. */
  function Cut(s: string, c: char): Option<Pair> {
    var n := IndexOf(s, c);
    if n < |s| then Some(Pair(s[..n], s[n + 1..])) else None
  }

  function Split(s: string, c: char): (parts: seq<string>)
    ensures |parts| > 0
    ensures forall i :: 0 <= i < |parts| ==> c !in parts[i]
    decreases |s|
  {
    var n := IndexOf(s, c);
    if n == |s| then assert s[..n] == s; [s] else [s[..n]] + Split(s[n + 1..], c)
  }

  function Join(parts: seq<string>, c: char): string {
    if |parts| == 0 then ""
    else if |parts| == 1 then parts[0]
    else parts[0] + [c] + Join(parts[1..], c)
  }

  predicate IsSpace(c: char) {
    || c == ' ' || '\t' <= c <= '\r'
    || c == '\U{85}' || c == '\U{A0}' || c == '\U{1680}' || '\U{2000}' <= c <= '\U{200a}'
    || c == '\U{2028}' || c == '\U{2029}' || c == '\U{202f}' || c == '\U{205f}' || c == '\U{3000}'
  }

  predicate Trimmed(s: string) {
    |s| > 0 ==> !IsSpace(s[0]) && !IsSpace(s[|s| - 1])
  }

  function TrimSpace(s: string): (r: string)
    ensures Trimmed(r) && forall c :: c in r ==> c in s
    ensures Trimmed(s) ==> r == s
    decreases |s|
  {
    if |s| == 0 then s
    else if IsSpace(s[0]) then TrimSpace(s[1..])
    else if IsSpace(s[|s| - 1]) then TrimSpace(s[..|s| - 1])
    else s
  }

  // ---------------------------------------------------------------- facts

  lemma CaseFolds(s: string)
    ensures ToLower(ToLower(s)) == ToLower(s) && ToUpper(ToLower(s)) == ToUpper(s) && ToLower(ToUpper(s)) == ToLower(s)
  {
  }

  lemma LowerAppends(s: string, t: string)
    ensures ToLower(s + t) == ToLower(s) + ToLower(t)
  {
  }

  lemma IndexOfIs(s: string, t: string, c: char)
    requires c !in s
    ensures IndexOf(s + [c] + t, c) == |s|
  {
    var whole := s + [c] + t;
    assert whole[|s|] == c && whole[..|s|] == s;
  }

  lemma CutJoined(s: string, t: string, c: char)
    requires c !in s
    ensures Cut(s + [c] + t, c) == Some(Pair(s, t))
  {
    IndexOfIs(s, t, c);
    assert (s + [c] + t)[..|s|] == s;
  }

  /** Joining and splitting are inverse as long as no part holds the separator. */
  lemma {:induction false} SplitJoined(parts: seq<string>, c: char)
    requires |parts| > 0 && forall i :: 0 <= i < |parts| ==> c !in parts[i]
    ensures Split(Join(parts, c), c) == parts
  {
    if |parts| > 1 {
      IndexOfIs(parts[0], Join(parts[1..], c), c);
      var s := Join(parts, c);
      assert s[..|parts[0]|] == parts[0] && s[|parts[0]| + 1..] == Join(parts[1..], c);
      SplitJoined(parts[1..], c);
    }
  }

  /** Lower and upper case differ in the 26 ASCII letters and nowhere else. */
  lemma CaseIsAscii(i: nat, c: char)
    requires i < 26
    ensures var upper, lower := "ABCDEFGHIJKLMNOPQRSTUVWXYZ", "abcdefghijklmnopqrstuvwxyz";
      && Lower(upper[i]) == lower[i] && Upper(lower[i]) == upper[i]
      && (c !in upper ==> Lower(c) == c) && (c !in lower ==> Upper(c) == c)
  {
    var upper, lower := "ABCDEFGHIJKLMNOPQRSTUVWXYZ", "abcdefghijklmnopqrstuvwxyz";
    assert upper[i] == ('A' as int + i) as char && lower[i] == ('a' as int + i) as char;
    if 'A' <= c <= 'Z' {
      assert upper[c as int - 'A' as int] == c;
    }
    if 'a' <= c <= 'z' {
      assert lower[c as int - 'a' as int] == c;
    }
  }

  /** White space as Unicode has it. */
  lemma SpaceIs(c: char)
    ensures IsSpace(c) <==>
      || c as int in {9, 10, 11, 12, 13, 32, 0x85, 0xA0, 0x1680, 0x2028, 0x2029, 0x202F, 0x205F, 0x3000}
      || 0x2000 <= c as int <= 0x200A
  {
  }

  lemma SuffixIs(s: string, suffix: string)
    ensures HasSuffix(s, suffix) <==> exists prefix :: s == prefix + suffix
  {
    if HasSuffix(s, suffix) {
      assert s == s[..|s| - |suffix|] + suffix;
    }
    if prefix :| s == prefix + suffix {
      assert s[|prefix|..] == suffix;
    }
  }

  lemma OneDotIsDropped(s: string)
    ensures TrimDot(s + ".") == s
    ensures (|s| > 0 ==> s[|s| - 1] != '.') ==> TrimDot(s) == s
  {
    assert (s + ".")[..|s|] == s;
  }

  lemma NothingToCut(s: string, c: char)
    requires c !in s
    ensures Cut(s, c) == None
  {
  }

  lemma SplitIs(s: string, c: char)
    ensures var n := IndexOf(s, c);
      Split(s, c) == if n == |s| then [s] else [s[..n]] + Split(s[n + 1..], c)
  {
  }

  lemma JoinIs(part: string, parts: seq<string>, c: char)
    ensures Join([part] + parts, c) == if |parts| == 0 then part else part + [c] + Join(parts, c)
  {
    assert ([part] + parts)[1..] == parts;
  }

  lemma {:induction false} JoinedSplit(s: string, c: char)
    ensures Join(Split(s, c), c) == s
    decreases |s|
  {
    hide *;
    SplitIs(s, c);
    var n := IndexOf(s, c);
    if n < |s| {
      JoinedSplit(s[n + 1..], c);
      JoinIs(s[..n], Split(s[n + 1..], c), c);
      assert s == s[..n] + [c] + s[n + 1..];
    } else {
      JoinIs(s, [], c);
      assert [s] + [] == [s];
    }
  }

  /** Trimming drops space around the text and nothing else. */
  lemma {:induction false} TrimmingDropsSpace(s: string) returns (before: string, after: string)
    ensures s == before + TrimSpace(s) + after
    ensures forall c :: c in before || c in after ==> IsSpace(c)
    decreases |s|
  {
    if |s| > 0 && IsSpace(s[0]) {
      var b, a := TrimmingDropsSpace(s[1..]);
      before, after := [s[0]] + b, a;
      assert s == [s[0]] + s[1..];
    } else if |s| > 0 && IsSpace(s[|s| - 1]) {
      var b, a := TrimmingDropsSpace(s[..|s| - 1]);
      before, after := b, a + [s[|s| - 1]];
      assert s == s[..|s| - 1] + [s[|s| - 1]];
    } else {
      before, after := "", "";
    }
  }

  /** ... so a text without space at its ends comes back however much space is put around it. */
  lemma {:induction false} SpaceIsTrimmed(before: string, s: string, after: string)
    requires Trimmed(s) && forall c :: c in before || c in after ==> IsSpace(c)
    ensures TrimSpace(before + s + after) == s
    decreases |before| + |after|
  {
    hide IsSpace;
    var whole := before + s + after;
    if |before| > 0 {
      assert whole[0] == before[0] && whole[1..] == before[1..] + s + after;
      SpaceIsTrimmed(before[1..], s, after);
    } else if |after| > 0 {
      var n := |after| - 1;
      assert whole[|whole| - 1] == after[n] && whole[..|whole| - 1] == before + s + after[..n];
      SpaceIsTrimmed(before, s, after[..n]);
      if |s| > 0 {
        assert whole[0] == s[0];
      } else if IsSpace(whole[0]) && |whole| > 1 {
        assert whole[1..] == after[1..];
        assert before + s + after[1..] == after[1..];
        SpaceIsTrimmed(before, s, after[1..]);
      } else if |whole| == 1 {
        assert whole[1..] == "";
      }
    } else {
      assert whole == s;
    }
  }
}
