/** sam2-cli/MainCommand.swift: reading a point such as `12.5,40` from a
    command-line argument. */
module MainCommand {
  import opened Wrappers
  import opened Geometry
  import opened Text

  /** `split(separator:)` with its defaults: the pieces between separators,
      empty pieces dropped. */
  function SplitOn(s: string, sep: char): (parts: seq<string>)
    ensures forall i :: 0 <= i < |parts| ==> |parts[i]| > 0 && sep !in parts[i]
    decreases |s|
  {
    var k := IndexOf(s, sep);
    if k == |s| then
      if s == [] then [] else [s]
    else
      (if k == 0 then [] else [s[..k]]) + SplitOn(s[k + 1..], sep)
  }

  /** All characters of `s` except the separators, in order. */
  function Without(s: string, sep: char): (r: string)
    ensures sep !in r
  {
    if s == [] then []
    else if s[0] == sep then Without(s[1..], sep)
    else [s[0]] + Without(s[1..], sep)
  }

  function Concat(parts: seq<string>): string {
    if parts == [] then [] else parts[0] + Concat(parts[1..])
  }

  lemma {:induction false} WithoutAppend(a: string, b: string, sep: char)
    ensures Without(a + b, sep) == Without(a, sep) + Without(b, sep)
  {
    if a == [] {
      assert a + b == b;
    } else {
      assert (a + b)[0] == a[0];
      assert (a + b)[1..] == a[1..] + b;
      WithoutAppend(a[1..], b, sep);
    }
  }

  lemma {:induction false} WithoutAbsent(s: string, sep: char)
    requires forall j :: 0 <= j < |s| ==> s[j] != sep
    ensures Without(s, sep) == s
  {
    if s != [] {
      WithoutAbsent(s[1..], sep);
    }
  }

  lemma ConcatPrepend(p: string, parts: seq<string>)
    ensures Concat([p] + parts) == p + Concat(parts)
  {
    assert ([p] + parts)[1..] == parts;
  }

  /** Splitting loses nothing but the separators: the pieces, joined, are
      the input with its separators removed. */
  lemma {:induction false} SplitKeepsText(s: string, sep: char)
    ensures Concat(SplitOn(s, sep)) == Without(s, sep)
    decreases |s|
  {
    var k := IndexOf(s, sep);
    if k == |s| {
      WithoutAbsent(s, sep);
      if s != [] {
        assert SplitOn(s, sep) == [s];
        ConcatPrepend(s, []);
      }
    } else {
      SplitKeepsText(s[k + 1..], sep);
      SplitKeepsTextStep(s, sep, k);
    }
  }

  /** The step of `SplitKeepsText` at the first separator, at index k. */
  lemma SplitKeepsTextStep(s: string, sep: char, k: nat)
    requires k == IndexOf(s, sep) < |s|
    requires Concat(SplitOn(s[k + 1..], sep)) == Without(s[k + 1..], sep)
    ensures Concat(SplitOn(s, sep)) == Without(s, sep)
  {
    WithoutAtSeparator(s, sep, k);
    if k > 0 {
      ConcatPrepend(s[..k], SplitOn(s[k + 1..], sep));
    } else {
      assert SplitOn(s, sep) == SplitOn(s[1..], sep);
      assert s[..0] == [];
    }
  }

  /** Removing the separators around the first one. */
  lemma WithoutAtSeparator(s: string, sep: char, k: nat)
    requires k == IndexOf(s, sep) < |s|
    ensures Without(s, sep) == s[..k] + Without(s[k + 1..], sep)
  {
    var piece, rest := s[..k], s[k + 1..];
    assert s == piece + [sep] + rest;
    WithoutAppend(piece + [sep], rest, sep);
    WithoutSeparatorAfter(piece, sep);
  }

  lemma WithoutSeparatorAfter(piece: string, sep: char)
    requires forall j :: 0 <= j < |piece| ==> piece[j] != sep
    ensures Without(piece + [sep], sep) == piece
  {
    WithoutAppend(piece, [sep], sep);
    WithoutAbsent(piece, sep);
    assert Without([sep], sep) == [];
  }

  /** `CGPoint(argument:)`: exactly two non-empty comma-separated numbers. */
  function ParsePointArgument(argument: string): (r: Option<Point2>)
    ensures r.Some? ==> |SplitOn(argument, ',')| == 2
    ensures r.Some? ==>
      && ParseDouble(SplitOn(argument, ',')[0]) == Some(r.value.x)
      && ParseDouble(SplitOn(argument, ',')[1]) == Some(r.value.y)
  {
    var components := SplitOn(argument, ',');
    if |components| != 2 then None
    else
      match (ParseDouble(components[0]), ParseDouble(components[1]))
      case (Some(x), Some(y)) => Some(Point2(x, y))
      case _ => None
  }

  lemma NoComma(s: string)
    requires AllDigits(s)
    ensures forall j :: 0 <= j < |s| ==> s[j] != ','
  {
  }

  /** A separator at the front produces no piece. */
  lemma SplitLeadingSeparator(s: string, sep: char)
    ensures SplitOn([sep] + s, sep) == SplitOn(s, sep)
  {
    assert IndexOf([sep] + s, sep) == 0;
    assert ([sep] + s)[1..] == s;
  }

  /** A separator-free piece followed by a separator is the first piece. */
  lemma SplitFirstPiece(a: string, rest: string, sep: char)
    requires |a| > 0 && forall j :: 0 <= j < |a| ==> a[j] != sep
    ensures SplitOn(a + [sep] + rest, sep) == [a] + SplitOn(rest, sep)
  {
    var s := a + [sep] + rest;
    assert IndexOf(s, sep) == |a| by {
      assert s[|a|] == sep;
      assert forall j :: 0 <= j < |a| ==> s[j] == a[j];
    }
    assert s[..|a|] == a;
    assert s[|a| + 1..] == rest;
  }

  /** A separator-free piece alone is the only piece. */
  lemma SplitLastPiece(a: string, sep: char)
    requires |a| > 0 && forall j :: 0 <= j < |a| ==> a[j] != sep
    ensures SplitOn(a, sep) == [a]
  {
    assert IndexOf(a, sep) == |a|;
  }

  /** The pieces break exactly at the separators: splitting at any
      separator splits each side on its own. Together with `SplitLastPiece`
      and `SplitOn("", sep) == []` this fixes the result: the maximal
      non-empty separator-free runs, in order. */
  lemma SplitOnSeparator(a: string, b: string, sep: char)
    ensures SplitOn(a + [sep] + b, sep) == SplitOn(a, sep) + SplitOn(b, sep)
  {
    var s := a + [sep] + b;
    assert s[..|a|] == a && s[|a| + 1..] == b;
    SplitAtSeparator(s, sep, |a|);
  }

  /** `SplitOnSeparator` on one string cut at the separator at index i. */
  lemma {:induction false} SplitAtSeparator(s: string, sep: char, i: nat)
    requires i < |s| && s[i] == sep
    ensures SplitOn(s, sep) == SplitOn(s[..i], sep) + SplitOn(s[i + 1..], sep)
    decreases i
  {
    var k := IndexOf(s, sep);
    if k == i {
      SplitAt(s, sep, k);
      if k > 0 {
        SplitLastPiece(s[..k], sep);
      }
    } else {
      SplitAtSeparator(s[k + 1..], sep, i - k - 1);
      SliceOfSuffix(s, k + 1, i);
      SplitAtLaterSeparator(s, sep, k, i);
    }
  }

  /** The step of `SplitAtSeparator` when the first separator, at k, comes
      before the cut at i. */
  lemma SplitAtLaterSeparator(s: string, sep: char, k: nat, i: nat)
    requires k == IndexOf(s, sep) < i < |s|
    requires SplitOn(s[k + 1..], sep) == SplitOn(s[k + 1..i], sep) + SplitOn(s[i + 1..], sep)
    ensures SplitOn(s, sep) == SplitOn(s[..i], sep) + SplitOn(s[i + 1..], sep)
  {
    var head: seq<string> := if k == 0 then [] else [s[..k]];
    SplitAt(s, sep, k);
    SplitPrefixAt(s, sep, k, i);
    AppendAssoc(head, SplitOn(s[k + 1..i], sep), SplitOn(s[i + 1..], sep));
  }

  lemma AppendAssoc(x: seq<string>, y: seq<string>, z: seq<string>)
    ensures x + (y + z) == (x + y) + z
  {
  }

  /** Cutting a suffix of `s` at index i - lo is cutting `s` at i. */
  lemma SliceOfSuffix(s: string, lo: nat, i: nat)
    requires lo <= i < |s|
    ensures s[lo..][..i - lo] == s[lo..i] && s[lo..][i - lo + 1..] == s[i + 1..]
  {
  }

  /** Cutting `s` at index i keeps its first separator, at k < i. */
  lemma SplitPrefixAt(s: string, sep: char, k: nat, i: nat)
    requires k == IndexOf(s, sep) < i <= |s|
    ensures SplitOn(s[..i], sep) == (if k == 0 then [] else [s[..k]]) + SplitOn(s[k + 1..i], sep)
  {
    var p := s[..i];
    assert IndexOf(p, sep) == k by {
      assert p[k] == sep;
      assert forall j :: 0 <= j < k ==> p[j] == s[j];
    }
    assert p[..k] == s[..k];
    assert p[k + 1..] == s[k + 1..i];
    SplitAt(p, sep, k);
  }

  /** One unfolding of `SplitOn` at its first separator. */
  lemma SplitAt(s: string, sep: char, k: nat)
    requires k == IndexOf(s, sep) < |s|
    ensures SplitOn(s, sep) == (if k == 0 then [] else [s[..k]]) + SplitOn(s[k + 1..], sep)
  {
  }

  /** Splitting two comma-free pieces joined by one comma. */
  lemma SplitPair(a: string, b: string)
    requires |a| > 0 && |b| > 0
    requires forall j :: 0 <= j < |a| ==> a[j] != ','
    requires forall j :: 0 <= j < |b| ==> b[j] != ','
    ensures SplitOn(a + "," + b, ',') == [a, b]
  {
    SplitFirstPiece(a, b, ',');
    SplitLastPiece(b, ',');
  }

  /** A point written as two whole numbers separated by a comma is read
      back exactly. */
  lemma PointArgumentRoundTrip(x: nat, y: nat)
    ensures ParsePointArgument(NatToString(x) + "," + NatToString(y)) == Some(Point2(x as real, y as real))
  {
    NoComma(NatToString(x));
    NoComma(NatToString(y));
    SplitPair(NatToString(x), NatToString(y));
    ParseDoubleNatToString(x);
    ParseDoubleNatToString(y);
  }

  /** Empty pieces are dropped: a leading, trailing or doubled comma
      leaves the same two pieces. */
  lemma SplitExtraCommas(a: string, b: string)
    requires |a| > 0 && |b| > 0
    requires forall j :: 0 <= j < |a| ==> a[j] != ','
    requires forall j :: 0 <= j < |b| ==> b[j] != ','
    ensures SplitOn([','] + (a + [','] + ([','] + (b + ","))), ',') == [a, b]
  {
    var tail := b + ",";
    SplitTrailingComma(b);
    SplitLeadingSeparator(tail, ',');
    SplitFirstPiece(a, [','] + tail, ',');
    SplitLeadingSeparator(a + [','] + ([','] + tail), ',');
  }

  lemma SplitTrailingComma(b: string)
    requires |b| > 0
    requires forall j :: 0 <= j < |b| ==> b[j] != ','
    ensures SplitOn(b + ",", ',') == [b]
  {
    SplitFirstPiece(b, [], ',');
    assert b + [','] + [] == b + ",";
  }

  /** So a point written with extra commas is still read back exactly. */
  lemma ExtraCommasIgnored(x: nat, y: nat)
    ensures ParsePointArgument("," + NatToString(x) + ",," + NatToString(y) + ",") == Some(Point2(x as real, y as real))
  {
    var a, b := NatToString(x), NatToString(y);
    NoComma(a);
    NoComma(b);
    SplitExtraCommas(a, b);
    ExtraCommasShape(a, b);
    ParseDoubleNatToString(x);
    ParseDoubleNatToString(y);
    ParseTwoPieces("," + a + ",," + b + ",", a, b);
  }

  lemma ExtraCommasShape(a: string, b: string)
    ensures [','] + (a + [','] + ([','] + (b + ","))) == "," + a + ",," + b + ","
  {
  }

  /** An argument that splits into two numerals is the point they denote. */
  lemma ParseTwoPieces(argument: string, a: string, b: string)
    requires SplitOn(argument, ',') == [a, b]
    requires ParseDouble(a).Some? && ParseDouble(b).Some?
    ensures ParsePointArgument(argument) == Some(Point2(ParseDouble(a).value, ParseDouble(b).value))
  {
  }

  /** A single number is rejected. */
  lemma OneComponentRejected(s: string)
    requires |s| > 0 && forall j :: 0 <= j < |s| ==> s[j] != ','
    ensures ParsePointArgument(s).None?
  {
    assert IndexOf(s, ',') == |s|;
  }

  /** Three numbers are rejected. */
  lemma ThreeComponentsRejected(a: string, b: string, c: string)
    requires |a| > 0 && |b| > 0 && |c| > 0
    requires forall j :: 0 <= j < |a| ==> a[j] != ','
    requires forall j :: 0 <= j < |b| ==> b[j] != ','
    requires forall j :: 0 <= j < |c| ==> c[j] != ','
    ensures ParsePointArgument(a + "," + b + "," + c).None?
  {
    SplitFirstPiece(a, b + "," + c, ',');
    assert a + [','] + (b + "," + c) == a + "," + b + "," + c;
    SplitPair(b, c);
  }

  /** A piece that is not a number is rejected. */
  lemma NonNumericRejected(a: string, b: string)
    requires |a| > 0 && |b| > 0
    requires forall j :: 0 <= j < |a| ==> a[j] != ','
    requires forall j :: 0 <= j < |b| ==> b[j] != ','
    requires ParseDouble(a).None? || ParseDouble(b).None?
    ensures ParsePointArgument(a + "," + b).None?
  {
    SplitPair(a, b);
  }
}
