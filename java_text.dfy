/**
 * The few pieces of java.lang behaviour the relay relies on, written out so
 * that their edge cases are explicit: 32-bit int wrap-around, String.indexOf,
 * contains, startsWith, endsWith, split (a literal separator, limit 0, so
 * trailing empty strings are removed), trim, Integer.parseInt with a radix,
 * Integer.toString, Boolean.valueOf and Boolean.toString.
 */
module JavaText {

  datatype Option<+T> = None | Some(value: T)

  /** An unsigned octet as it travels on the wire. */
  type byte = b: int | 0 <= b < 256

  const INT_MIN: int := -0x8000_0000
  const INT_MAX: int := 0x7fff_ffff

  predicate IsInt32(x: int) { INT_MIN <= x <= INT_MAX }

  /** Two's-complement truncation of an unbounded integer to a Java int. */
  function Wrap32(x: int): (r: int)
    ensures IsInt32(r)
    ensures (x - r) % 0x1_0000_0000 == 0
    ensures IsInt32(x) ==> r == x
  {
    var m := x % 0x1_0000_0000;
    if m > INT_MAX then m - 0x1_0000_0000 else m
  }

  /** Math.abs on a Java int: the absolute value of INT_MIN is INT_MIN. */
  function Abs32(x: int): (r: int)
    requires IsInt32(x)
    ensures IsInt32(r)
    ensures x != INT_MIN ==> r >= 0 && (r == x || r == -x)
    ensures x == INT_MIN ==> r == INT_MIN
  {
    Wrap32(if x < 0 then -x else x)
  }

  /** A byte read back as Java's signed byte. */
  function Signed(b: byte): (r: int)
    ensures -128 <= r < 128 && (r - b) % 256 == 0
  {
    if b < 128 then b else b - 256
  }

  // ---------------------------------------------------------------- searching

  predicate OccursAt(s: string, p: string, i: int)
  {
    0 <= i && i + |p| <= |s| && s[i..i + |p|] == p
  }

  /** String.indexOf(p, from): the first occurrence at or after from, or -1. */
  function IndexOfFrom(s: string, p: string, from: nat): (r: int)
    ensures r == -1 || (from <= r && OccursAt(s, p, r))
    ensures r == -1 ==> forall i :: from <= i ==> !OccursAt(s, p, i)
    ensures r != -1 ==> forall i :: from <= i < r ==> !OccursAt(s, p, i)
    decreases |s| - from
  {
    if from + |p| > |s| then -1
    else if s[from..from + |p|] == p then from
    else IndexOfFrom(s, p, from + 1)
  }

  function IndexOf(s: string, p: string): (r: int)
    ensures r == -1 <==> forall i :: !OccursAt(s, p, i)
    ensures r != -1 ==> OccursAt(s, p, r) && forall i :: 0 <= i < r ==> !OccursAt(s, p, i)
  {
    IndexOfFrom(s, p, 0)
  }

  predicate Contains(s: string, p: string)
  {
    IndexOf(s, p) != -1
  }

  lemma ContainsAt(s: string, p: string, i: int)
    requires OccursAt(s, p, i)
    ensures Contains(s, p)
  {
  }

  predicate StartsWith(s: string, p: string)
  {
    |p| <= |s| && s[..|p|] == p
  }

  predicate EndsWith(s: string, p: string)
  {
    |p| <= |s| && s[|s| - |p|..] == p
  }

  // ---------------------------------------------------------------- splitting

  /** Every piece between occurrences of a non-empty separator, empty ones included. */
  function Pieces(s: string, sep: string): (r: seq<string>)
    requires sep != []
    ensures |r| >= 1
    decreases |s|
  {
    var i := IndexOf(s, sep);
    if i == -1 then [s] else [s[..i]] + Pieces(s[i + |sep|..], sep)
  }

  /** The pieces put back together with the separator between them. */
  function Join(pieces: seq<string>, sep: string): string
  {
    if pieces == [] then []
    else if |pieces| == 1 then pieces[0]
    else pieces[0] + sep + Join(pieces[1..], sep)
  }

  function DropTrailingEmpty(xs: seq<string>): (r: seq<string>)
    ensures |r| <= |xs| && r == xs[..|r|]
    ensures r == [] || r[|r| - 1] != []
    ensures forall k :: |r| <= k < |xs| ==> xs[k] == []
  {
    if xs != [] && xs[|xs| - 1] == [] then DropTrailingEmpty(xs[..|xs| - 1]) else xs
  }

  /**
   * String.split with a separator that contains no regular-expression
   * metacharacter and limit 0: a string without the separator gives itself,
   * otherwise the pieces with trailing empty strings removed.
   */
  function Split(s: string, sep: string): (r: seq<string>)
    requires sep != []
  {
    if !Contains(s, sep) then [s] else DropTrailingEmpty(Pieces(s, sep))
  }

  /** Splitting and joining again gives back the original string. */
  lemma {:induction false} JoinPieces(s: string, sep: string)
    requires sep != []
    ensures Join(Pieces(s, sep), sep) == s
    decreases |s|
  {
    var i := IndexOf(s, sep);
    if i != -1 {
      var head, rest := s[..i], s[i + |sep|..];
      var ps := Pieces(rest, sep);
      assert Pieces(s, sep) == [head] + ps;
      JoinPieces(rest, sep);
      JoinCons(head, ps, sep);
      CutAt(s, sep, i);
    }
  }

  /** A string is the text before an occurrence, the occurrence and the text after it. */
  lemma CutAt(s: string, p: string, i: int)
    requires OccursAt(s, p, i)
    ensures s == s[..i] + p + s[i + |p|..]
  {
    assert s == s[..i] + s[i..i + |p|] + s[i + |p|..];
  }

  /** Joining a piece in front of non-empty pieces adds the piece and a separator. */
  lemma JoinCons(head: string, ps: seq<string>, sep: string)
    requires ps != []
    ensures Join([head] + ps, sep) == head + sep + Join(ps, sep)
  {
    assert ([head] + ps)[1..] == ps;
  }

  /** No piece holds the separator. */
  lemma {:induction false} PiecesFree(s: string, sep: string)
    requires sep != []
    ensures forall k :: 0 <= k < |Pieces(s, sep)| ==> !Contains(Pieces(s, sep)[k], sep)
    decreases |s|
  {
    var i := IndexOf(s, sep);
    if i != -1 {
      PiecesFree(s[i + |sep|..], sep);
      var head := s[..i];
      forall j | true ensures !OccursAt(head, sep, j) {
        if OccursAt(head, sep, j) {
          assert s[j..j + |sep|] == head[j..j + |sep|];
          assert OccursAt(s, sep, j);
        }
      }
    }
  }

  /** Joining one more piece at the end adds the separator and the piece. */
  lemma {:induction false} JoinSnoc(pieces: seq<string>, sep: string, last: string)
    requires pieces != []
    ensures Join(pieces + [last], sep) == Join(pieces, sep) + sep + last
    decreases |pieces|
  {
    if |pieces| > 1 {
      JoinSnoc(pieces[1..], sep, last);
      assert (pieces + [last])[1..] == pieces[1..] + [last];
    }
  }

  /** No character of any piece is the separator's first character. */
  predicate FreeOfLead(fields: seq<string>, sep: string)
    requires sep != []
  {
    forall k, j :: 0 <= k < |fields| && 0 <= j < |fields[k]| ==> fields[k][j] != sep[0]
  }

  /** A string none of whose characters can start sep does not contain it. */
  lemma LeadFreeMisses(a: string, sep: string)
    requires sep != [] && forall j :: 0 <= j < |a| ==> a[j] != sep[0]
    ensures !Contains(a, sep)
  {
    forall i | 0 <= i ensures !OccursAt(a, sep, i) {
      if i + |sep| <= |a| {
        assert a[i..i + |sep|][0] == a[i];
      }
    }
  }

  /** In a + sep + b, the first sep is the one after a when a cannot start one. */
  lemma FirstSeparator(a: string, sep: string, b: string)
    requires sep != [] && forall j :: 0 <= j < |a| ==> a[j] != sep[0]
    ensures IndexOf(a + sep + b, sep) == |a|
    ensures (a + sep + b)[|a| + |sep|..] == b
  {
    var s := a + sep + b;
    assert s[|a|..|a| + |sep|] == sep;
    assert OccursAt(s, sep, |a|);
    forall i | 0 <= i < |a| ensures !OccursAt(s, sep, i) {
      assert s[i] == a[i];
      assert i + |sep| <= |s| ==> s[i..i + |sep|][0] == s[i];
    }
  }

  /** Cutting a + sep + b, where a cannot start sep, gives a and then the pieces of b. */
  lemma PiecesAtFirst(a: string, sep: string, b: string)
    requires sep != [] && IndexOf(a + sep + b, sep) == |a| && (a + sep + b)[|a| + |sep|..] == b
    ensures Pieces(a + sep + b, sep) == [a] + Pieces(b, sep)
  {
    assert (a + sep + b)[..|a|] == a;
  }

  /** Joining pieces that cannot start a separator and cutting again gives the pieces back. */
  lemma {:induction false} PiecesOfJoin(fields: seq<string>, sep: string)
    requires |fields| >= 1 && sep != [] && FreeOfLead(fields, sep)
    ensures Pieces(Join(fields, sep), sep) == fields
    decreases |fields|
  {
    var f0 := fields[0];
    assert forall j :: 0 <= j < |f0| ==> f0[j] != sep[0];
    if |fields| == 1 {
      LeadFreeMisses(f0, sep);
    } else {
      var rest := Join(fields[1..], sep);
      assert FreeOfLead(fields[1..], sep) by {
        forall k, j | 0 <= k < |fields| - 1 && 0 <= j < |fields[1..][k]|
          ensures fields[1..][k][j] != sep[0]
        {
          assert fields[1..][k] == fields[k + 1];
        }
      }
      PiecesOfJoin(fields[1..], sep);
      calc {
        Pieces(Join(fields, sep), sep);
        { assert Join(fields, sep) == f0 + sep + rest; }
        Pieces(f0 + sep + rest, sep);
        { FirstSeparator(f0, sep, rest); PiecesAtFirst(f0, sep, rest); }
        [f0] + Pieces(rest, sep);
        [f0] + fields[1..];
        { assert fields == [f0] + fields[1..]; }
        fields;
      }
    }
  }

  /** Split undoes Join when there are two or more pieces and the last one is not empty. */
  lemma SplitOfJoin(fields: seq<string>, sep: string)
    requires |fields| >= 2 && sep != [] && FreeOfLead(fields, sep) && fields[|fields| - 1] != []
    ensures Split(Join(fields, sep), sep) == fields
  {
    var s := Join(fields, sep);
    PiecesOfJoin(fields, sep);
    assert s == fields[0] + sep + Join(fields[1..], sep);
    assert s[|fields[0]|..|fields[0]| + |sep|] == sep;
    ContainsAt(s, sep, |fields[0]|);
  }

  // ---------------------------------------------------------------- trimming

  predicate IsSpace(c: char) { c <= ' ' }

  function TrimStart(s: string): (r: string)
    ensures |r| <= |s| && r == s[|s| - |r|..]
    ensures r == [] || !IsSpace(r[0])
    ensures forall k :: 0 <= k < |s| - |r| ==> IsSpace(s[k])
  {
    if s != [] && IsSpace(s[0]) then TrimStart(s[1..]) else s
  }

  function TrimEnd(s: string): (r: string)
    ensures |r| <= |s| && r == s[..|r|]
    ensures r == [] || !IsSpace(r[|r| - 1])
    ensures forall k :: |r| <= k < |s| ==> IsSpace(s[k])
  {
    if s != [] && IsSpace(s[|s| - 1]) then TrimEnd(s[..|s| - 1]) else s
  }

  /** String.trim: every character up to U+0020 is removed from both ends. */
  function Trim(s: string): (r: string)
    ensures |r| <= |s|
    ensures r == [] || (!IsSpace(r[0]) && !IsSpace(r[|r| - 1]))
  {
    TrimEnd(TrimStart(s))
  }

  /** Trim keeps a contiguous run of s and drops only spaces around it. */
  lemma TrimIsInfix(s: string)
    ensures exists i :: OccursAt(s, Trim(s), i)
    ensures s != [] && !IsSpace(s[0]) && !IsSpace(s[|s| - 1]) ==> Trim(s) == s
  {
    var t := TrimStart(s);
    var r := TrimEnd(t);
    assert Trim(s) == r;
    assert OccursAt(s, r, |s| - |t|) by {
      assert t == s[|s| - |t|..] && r == t[..|r|];
      assert s[|s| - |t|..][..|r|] == s[|s| - |t|..|s| - |t| + |r|];
    }
    if s != [] && !IsSpace(s[0]) && !IsSpace(s[|s| - 1]) {
      assert t == s;
      assert r == s;
    }
  }

  // ---------------------------------------------------------------- integers

  /** Character.digit restricted to ASCII digits and letters. */
  function DigitValue(c: char, radix: nat): (r: Option<nat>)
    ensures r.Some? ==> r.value < radix
  {
    var v: int :=
      if '0' <= c <= '9' then c as int - '0' as int
      else if 'a' <= c <= 'z' then c as int - 'a' as int + 10
      else if 'A' <= c <= 'Z' then c as int - 'A' as int + 10
      else -1;
    if 0 <= v < radix then Some(v) else None
  }

  /** The value of a run of digits, read most significant first. */
  function DigitsValue(ds: string, radix: nat): Option<nat>
  {
    if ds == [] then Some(0)
    else match (DigitsValue(ds[..|ds| - 1], radix), DigitValue(ds[|ds| - 1], radix))
      case (Some(high), Some(d)) => Some(high * radix + d)
      case _ => None
  }

  /**
   * Integer.parseInt(s, radix): an optional sign, at least one digit, and a
   * value that fits in a Java int; anything else is a NumberFormatException,
   * here None.
   */
  function ParseInt(s: string, radix: nat): (r: Option<int>)
    ensures r.Some? ==> IsInt32(r.value) && s != []
  {
    if s == [] then None
    else
      var negative := s[0] == '-';
      var digits := if s[0] == '-' || s[0] == '+' then s[1..] else s;
      if digits == [] then None
      else match DigitsValue(digits, radix)
        case None => None
        case Some(v) =>
          var value: int := if negative then 0 - v else v;
          if IsInt32(value) then Some(value) else None
  }

  /** The decimal digits of a natural number, without leading zeros. */
  function NatToDigits(n: nat): (r: string)
    ensures r != []
    ensures forall k :: 0 <= k < |r| ==> '0' <= r[k] <= '9'
    ensures n > 0 ==> r[0] != '0'
  {
    if n < 10 then [('0' as int + n) as char]
    else NatToDigits(n / 10) + [('0' as int + n % 10) as char]
  }

  /** Integer.toString / String.valueOf(int). */
  function IntToString(n: int): (r: string)
    ensures r != [] && (n < 0 <==> r[0] == '-')
  {
    if n < 0 then "-" + NatToDigits(-n) else NatToDigits(n)
  }

  lemma {:induction false} NatToDigitsValue(n: nat)
    ensures DigitsValue(NatToDigits(n), 10) == Some(n)
  {
    var ds := NatToDigits(n);
    if n >= 10 {
      NatToDigitsValue(n / 10);
      assert ds[..|ds| - 1] == NatToDigits(n / 10);
    }
  }

  /** Integer.parseInt(String.valueOf(n)) == n for every Java int. */
  lemma IntToStringRoundTrip(n: int)
    requires IsInt32(n)
    ensures ParseInt(IntToString(n), 10) == Some(n)
  {
    var s := IntToString(n);
    if n < 0 {
      NatToDigitsValue(-n);
      assert s[1..] == NatToDigits(-n);
    } else {
      NatToDigitsValue(n);
    }
  }

  /** Boolean.toString. */
  function BoolToString(b: bool): string
  {
    if b then "true" else "false"
  }

  function LowerAscii(c: char): char
  {
    if 'A' <= c <= 'Z' then (c as int + 32) as char else c
  }

  /** Boolean.valueOf(String): true exactly for "true" in any letter case. */
  function ParseBool(s: string): (r: bool)
    ensures r <==> |s| == 4 && forall k :: 0 <= k < 4 ==> LowerAscii(s[k]) == "true"[k]
  {
    |s| == 4 && LowerAscii(s[0]) == 't' && LowerAscii(s[1]) == 'r'
      && LowerAscii(s[2]) == 'u' && LowerAscii(s[3]) == 'e'
  }

  lemma BoolRoundTrip(b: bool)
    ensures ParseBool(BoolToString(b)) == b
  {
    if !b {
      assert LowerAscii("false"[0]) != 't';
    }
  }
}
