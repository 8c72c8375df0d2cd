/**
 * The JavaScript string operations the `.obj` parsers and the key registry use,
 * over `seq<char>`.
 */
module JsString {

  /** `s.split(c)` for a one-character separator: the maximal separator-free runs, empty ones included. */
  function Split(s: string, c: char): (parts: seq<string>)
    ensures |parts| >= 1
    decreases |s|
  {
    if |s| == 0 then [""]
    else
      var rest := Split(s[1..], c);
      if s[0] == c then [""] + rest
      else [[s[0]] + rest[0]] + rest[1..]
  }

  /** `parts.join(c)`, the inverse of `Split`. */
  function Join(parts: seq<string>, c: char): string
    requires |parts| >= 1
    decreases |parts|
  {
    if |parts| == 1 then parts[0] else parts[0] + [c] + Join(parts[1..], c)
  }

  /** Gluing the pieces back with the separator gives the original string. */
  lemma {:induction false} JoinSplit(s: string, c: char)
    ensures Join(Split(s, c), c) == s
    decreases |s|
  {
    if |s| > 0 {
      var rest := Split(s[1..], c);
      JoinSplit(s[1..], c);
      if s[0] == c {
        assert Split(s, c) == [""] + rest;
        assert Split(s, c)[1..] == rest;
      } else {
        var parts := Split(s, c);
        assert parts == [[s[0]] + rest[0]] + rest[1..];
        if |rest| == 1 {
          assert parts == [[s[0]] + rest[0]];
        } else {
          assert parts[1..] == rest[1..];
          assert Join(rest, c) == rest[0] + [c] + Join(rest[1..], c);
        }
        assert s == [s[0]] + s[1..];
      }
    }
  }

  /** No piece contains the separator. */
  lemma {:induction false} SplitPiecesFree(s: string, c: char)
    ensures forall i | 0 <= i < |Split(s, c)| :: c !in Split(s, c)[i]
    decreases |s|
  {
    if |s| > 0 {
      SplitPiecesFree(s[1..], c);
    }
  }

  /** Splitting a separator-joined list of separator-free pieces gives the pieces back. */
  lemma {:induction false} SplitJoin(parts: seq<string>, c: char)
    requires |parts| >= 1
    requires forall i | 0 <= i < |parts| :: c !in parts[i]
    ensures Split(Join(parts, c), c) == parts
    decreases |parts|, |parts[0]|
  {
    if |parts[0]| > 0 {
      var p0 := parts[0];
      var tail := [p0[1..]] + parts[1..];
      assert Join(parts, c) == [p0[0]] + Join(tail, c) by {
        if |parts| > 1 {
          assert tail[1..] == parts[1..];
        }
      }
      assert c !in p0[1..] by {
        forall k | 0 <= k < |p0[1..]| ensures p0[1..][k] != c { assert p0[1..][k] == p0[k + 1]; }
      }
      SplitJoin(tail, c);
      assert [p0[0]] + p0[1..] == p0;
      assert ([p0[0]] + Join(tail, c))[1..] == Join(tail, c);
    } else if |parts| > 1 {
      SplitJoin(parts[1..], c);
      assert Join(parts, c) == [c] + Join(parts[1..], c);
      assert ([c] + Join(parts[1..], c))[1..] == Join(parts[1..], c);
      assert [""] + parts[1..] == parts;
    }
  }

  /** `s.indexOf(c)`: the first position of `c`, or -1. */
  function IndexOf(s: string, c: char): (r: int)
    ensures -1 <= r < |s|
    ensures r == -1 <==> c !in s
    ensures r >= 0 ==> r < |s| && s[r] == c && c !in s[..r]
    decreases |s|
  {
    if |s| == 0 then -1
    else if s[0] == c then 0
    else
      var k := IndexOf(s[1..], c);
      if k == -1 then
        assert forall i | 0 <= i < |s| :: s[i] != c by {
          forall i | 0 <= i < |s| ensures s[i] != c {
            if i > 0 { assert s[i] == s[1..][i - 1]; }
          }
        }
        -1
      else
        assert s[..k + 1] == [s[0]] + s[1..][..k];
        assert s[k + 1] == s[1..][k];
        k + 1
  }

  /** Clamps a position into `0..n`, as `substring` does with its arguments. */
  function Clamp(i: int, n: nat): (r: nat)
    ensures r <= n
    ensures 0 <= i <= n ==> r == i
  {
    if i < 0 then 0 else if i > n then n else i
  }

  /** `s.substring(start, end)`: both ends clamped into the string, swapped when reversed. */
  function Substring(s: string, start: int, end: int): (r: string)
    ensures 0 <= start <= end <= |s| ==> r == s[start..end]
    ensures start <= 0 && end <= 0 ==> r == ""
    ensures start <= 0 && end >= |s| ==> r == s
  {
    var a := Clamp(start, |s|);
    var b := Clamp(end, |s|);
    if a <= b then s[a..b] else s[b..a]
  }

  /** `c.toLowerCase()` for one character: ASCII upper-case letters only. */
  function LowerChar(c: char): (r: char)
    ensures 'A' <= c <= 'Z' ==> 'a' <= r <= 'z'
    ensures !('A' <= c <= 'Z') ==> r == c
  {
    if 'A' <= c <= 'Z' then (c as int - 'A' as int + 'a' as int) as char else c
  }

  /**
   * `s.toLowerCase()`, character by character: no capital letter is left, every capital becomes
   * the same letter in lower case, and every other character is kept.
   */
  function ToLower(s: string): (r: string)
    ensures |r| == |s|
    ensures forall i | 0 <= i < |r| :: !('A' <= r[i] <= 'Z')
    ensures forall i | 0 <= i < |s| :: 'A' <= s[i] <= 'Z' ==> 'a' <= r[i] <= 'z' && r[i] as int - 'a' as int == s[i] as int - 'A' as int
    ensures forall i | 0 <= i < |s| :: !('A' <= s[i] <= 'Z') ==> r[i] == s[i]
  {
    seq(|s|, i requires 0 <= i < |s| => LowerChar(s[i]))
  }

  /** Lower-casing twice is lower-casing once. */
  lemma ToLowerIdempotent(s: string)
    ensures ToLower(ToLower(s)) == ToLower(s)
  {
    assert forall i | 0 <= i < |s| :: LowerChar(LowerChar(s[i])) == LowerChar(s[i]);
  }

  /** The characters of `s` that belong to `keep`, in order (`replaceAll` of the complement class with ""). */
  function KeepOnly(s: string, keep: set<char>): (r: string)
    ensures forall i | 0 <= i < |r| :: r[i] in keep
    ensures |r| <= |s|
    ensures (forall i | 0 <= i < |s| :: s[i] in keep) ==> r == s
    decreases |s|
  {
    if |s| == 0 then ""
    else if s[0] in keep then [s[0]] + KeepOnly(s[1..], keep)
    else KeepOnly(s[1..], keep)
  }

  /** `parts.filter((v) => v.length > 0)`. */
  function NonEmpty(parts: seq<string>): (r: seq<string>)
    ensures |r| <= |parts|
    ensures forall i | 0 <= i < |r| :: r[i] != "" && r[i] in parts
    ensures forall i | 0 <= i < |parts| :: parts[i] != "" ==> parts[i] in r
    decreases |parts|
  {
    if |parts| == 0 then []
    else if parts[0] == "" then NonEmpty(parts[1..])
    else [parts[0]] + NonEmpty(parts[1..])
  }

  /** Filtering out empty strings keeps a list without any. */
  lemma {:induction false} NonEmptyAll(parts: seq<string>)
    requires forall i | 0 <= i < |parts| :: parts[i] != ""
    ensures NonEmpty(parts) == parts
  {
    if |parts| > 0 {
      NonEmptyAll(parts[1..]);
    }
  }
}
