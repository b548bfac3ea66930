/** Indian digit grouping (`formatIndianNumber`) and the choice among the
    crore, lakh and plain renderings of an amount (`formatIndianCurrency`).
    A number is rendered through its `toString` text; the regular
    expression `/\B(?=(\d{2})+(?!\d))/g` is modelled position by position. */
module Currency {
  import opened Decimal

  // String primitives

  /** `String.prototype.substring(start, end)`: both bounds are clamped to
      `0..|s|` and then put in order. */
  function JsSubstring(s: string, start: int, end: int): (r: string)
    ensures 0 <= start <= end <= |s| ==> r == s[start..end]
    ensures end <= 0 ==> r == s[..Clamp(start, |s|)]
    ensures start <= 0 && end >= |s| ==> r == s
  {
    var a, b := Clamp(start, |s|), Clamp(end, |s|);
    if a <= b then s[a..b] else s[b..a]
  }

  function Clamp(k: int, n: nat): (r: nat)
    ensures r <= n
    ensures 0 <= k <= n ==> r == k
  {
    if k < 0 then 0 else if k > n then n else k
  }

  /** The text with every comma deleted. */
  function RemoveCommas(s: string): string {
    if s == [] then [] else (if s[0] == ',' then [] else [s[0]]) + RemoveCommas(s[1..])
  }

  /** No comma is left, and a comma-free text is returned as it was. */
  lemma {:induction false} RemoveCommasSpec(s: string)
    ensures ',' !in RemoveCommas(s)
    ensures ',' !in s ==> RemoveCommas(s) == s
  {
    if s != [] {
      RemoveCommasSpec(s[1..]);
      if ',' !in s {
        assert s == [s[0]] + s[1..];
      }
    }
  }

  lemma {:induction false} RemoveCommasAppend(a: string, b: string)
    ensures RemoveCommas(a + b) == RemoveCommas(a) + RemoveCommas(b)
  {
    if a == [] {
      assert a + b == b;
    } else {
      var ab := a + b;
      assert ab[0] == a[0] && ab[1..] == a[1..] + b;
      RemoveCommasAppend(a[1..], b);
      var head := if a[0] == ',' then [] else [a[0]];
      assert RemoveCommas(ab) == head + RemoveCommas(a[1..] + b);
      assert RemoveCommas(a) == head + RemoveCommas(a[1..]);
    }
  }

  // The regular expression /\B(?=(\d{2})+(?!\d))/

  /** `\w`: an ASCII letter or digit, or the underscore. */
  predicate IsWordChar(c: char) {
    'a' <= c <= 'z' || 'A' <= c <= 'Z' || IsDigit(c) || c == '_'
  }

  /** Position `i` lies between `s[i - 1]` and `s[i]`; beyond either end of
      the text there is no word character. */
  predicate WordBefore(s: string, i: nat)
    requires i <= |s|
  {
    0 < i && IsWordChar(s[i - 1])
  }

  predicate WordAfter(s: string, i: nat)
    requires i <= |s|
  {
    i < |s| && IsWordChar(s[i])
  }

  /** `\b` holds at position `i`. */
  predicate IsBoundary(s: string, i: nat)
    requires i <= |s|
  {
    WordBefore(s, i) != WordAfter(s, i)
  }

  /** The number of digits that follow position `i` before the first
      non-digit or the end. */
  function DigitRun(s: string, i: nat): (r: nat)
    requires i <= |s|
    ensures i + r <= |s|
    decreases |s| - i
  {
    if i < |s| && IsDigit(s[i]) then 1 + DigitRun(s, i + 1) else 0
  }

  /** The digit run is all digits and stops at a non-digit or the end. */
  lemma {:induction false} DigitRunBounds(s: string, i: nat)
    requires i <= |s|
    ensures var r := DigitRun(s, i);
      AllDigits(s[i..i + r]) && (i + r < |s| ==> !IsDigit(s[i + r]))
    decreases |s| - i
  {
    if i < |s| && IsDigit(s[i]) {
      DigitRunBounds(s, i + 1);
      var r := DigitRun(s, i);
      assert s[i..i + r] == [s[i]] + s[i + 1..i + r];
    }
  }

  /** `(\d{2})+(?!\d)` matches `2 * k` characters from position `i`. */
  predicate PairsEndAt(s: string, i: nat, k: nat)
    requires i <= |s|
  {
    1 <= k && i + 2 * k <= |s| && AllDigits(s[i..i + 2 * k]) &&
    (i + 2 * k == |s| || !IsDigit(s[i + 2 * k]))
  }

  /** The lookahead `(?=(\d{2})+(?!\d))` succeeds at position `i`. */
  ghost predicate PairsAhead(s: string, i: nat)
    requires i <= |s|
  {
    exists k: nat :: PairsEndAt(s, i, k)
  }

  /** A match of the expression at `i`: not a word boundary, and a positive
      even number of digits up to the next non-digit. */
  predicate CommaAt(s: string, i: nat)
    requires i <= |s|
  {
    !IsBoundary(s, i) && DigitRun(s, i) >= 2 && DigitRun(s, i) % 2 == 0
  }

  /** A run of digits ending at a non-digit or at the end is exactly the
      digit run. */
  lemma {:induction false} RunEndsAt(s: string, i: nat, j: nat)
    requires i <= j <= |s| && AllDigits(s[i..j])
    requires j == |s| || !IsDigit(s[j])
    ensures DigitRun(s, i) == j - i
    decreases j - i
  {
    if i < j {
      assert IsDigit(s[i..j][0]);
      assert s[i + 1..j] == s[i..j][1..];
      RunEndsAt(s, i + 1, j);
    }
  }

  /** The lookahead holds exactly when the digit run is even and positive. */
  lemma LookaheadIsEvenRun(s: string, i: nat)
    requires i <= |s|
    ensures PairsAhead(s, i) <==> DigitRun(s, i) >= 2 && DigitRun(s, i) % 2 == 0
  {
    var r := DigitRun(s, i);
    DigitRunBounds(s, i);
    if r >= 2 && r % 2 == 0 {
      assert PairsEndAt(s, i, r / 2);
    }
    if PairsAhead(s, i) {
      var k: nat :| PairsEndAt(s, i, k);
      RunEndsAt(s, i, i + 2 * k);
    }
  }

  /** `s.replace(/\B(?=(\d{2})+(?!\d))/g, ",")` from position `i` on: every
      position from `i` to the end is tried, and a comma goes in at each
      match. */
  function Commas(s: string, i: nat): string
    requires i <= |s|
    decreases |s| - i
  {
    var mark := if CommaAt(s, i) then "," else "";
    if i == |s| then mark else mark + [s[i]] + Commas(s, i + 1)
  }

  /** The whole replacement: it only ever adds commas. */
  function InsertPairCommas(s: string): (r: string)
    ensures RemoveCommas(r) == RemoveCommas(s)
  {
    CommasRemoved(s, 0);
    assert s[0..] == s;
    Commas(s, 0)
  }

  /** Inserting commas leaves the other characters as they were. */
  lemma {:induction false} CommasRemoved(s: string, i: nat)
    requires i <= |s|
    ensures RemoveCommas(Commas(s, i)) == RemoveCommas(s[i..])
    decreases |s| - i
  {
    var mark := if CommaAt(s, i) then "," else "";
    if i < |s| {
      var rest := Commas(s, i + 1);
      assert Commas(s, i) == mark + [s[i]] + rest;
      CommasRemoved(s, i + 1);
      DropMark(mark, s[i], rest, s[i + 1..]);
      assert s[i..] == [s[i]] + s[i + 1..];
    } else {
      assert Commas(s, i) == mark;
    }
  }

  /** A comma or nothing in front of a character vanishes with the commas. */
  lemma DropMark(mark: string, c: char, rest: string, tail: string)
    requires mark == "," || mark == ""
    requires RemoveCommas(rest) == RemoveCommas(tail)
    ensures RemoveCommas(mark + [c] + rest) == RemoveCommas([c] + tail)
  {
    RemoveCommasAppend(mark + [c], rest);
    RemoveCommasAppend(mark, [c]);
    RemoveCommasAppend([c], tail);
    assert RemoveCommas(mark) == [];
  }

  // formatIndianNumber

  /** `formatIndianNumber` on the text `x = num.toString()`: the last three
      characters stay together and commas go into the rest. */
  function FormatIndianText(x: string): (r: string)
    ensures |x| <= 3 ==> r == x
    ensures |x| > 3 ==> |r| > 3 && r[|r| - 4..] == "," + x[|x| - 3..]
  {
    var lastThree := JsSubstring(x, |x| - 3, |x|);
    var otherNumbers := JsSubstring(x, 0, |x| - 3);
    if otherNumbers != "" then InsertPairCommas(otherNumbers) + "," + lastThree else lastThree
  }

  /** `formatIndianNumber` as written, for an integral `num`. */
  function FormatIndianNumber(num: int): (r: string)
    ensures 0 <= num < 1000 ==> r == NatToDecimal(num)
    ensures num >= 1000 ==> |r| >= 4 && r[|r| - 4..] == "," + NatToDecimal(num)[|NatToDecimal(num)| - 3..]
  {
    if num >= 0 then
      DecimalLength(num);
      FormatIndianText(NatToDecimal(num))
    else
      FormatIndianText(IntToDecimal(num))
  }

  /** Deleting the commas from the output gives back the input text. */
  lemma FormatRoundTrip(x: string)
    requires ',' !in x
    ensures RemoveCommas(FormatIndianText(x)) == x
  {
    RemoveCommasSpec(x);
    if |x| > 3 {
      var other, last := x[..|x| - 3], x[|x| - 3..];
      FormatSplit(x);
      assert x == other + last;
      assert ',' !in other && ',' !in last;
      RemoveCommasSpec(other);
      RemoveCommasSpec(last);
      var ins := InsertPairCommas(other);
      assert RemoveCommas(ins) == other;
      RemoveCommasAroundComma(ins, last);
    }
  }

  lemma RemoveCommasAroundComma(a: string, b: string)
    ensures RemoveCommas(a + "," + b) == RemoveCommas(a) + RemoveCommas(b)
  {
    var c := ",";
    assert RemoveCommas(c) == [] by {
      assert c[1..] == [];
    }
    RemoveCommasAppend(a, c);
    RemoveCommasAppend(a + c, b);
  }

  /** For a number: deleting the commas gives its `toString`, and for a
      non-negative number reading those digits gives the number back. */
  lemma FormatIndianNumberRoundTrip(num: int)
    ensures RemoveCommas(FormatIndianNumber(num)) == IntToDecimal(num)
    ensures num >= 0 ==> DecimalValue(RemoveCommas(FormatIndianNumber(num))) == num
  {
    FormatRoundTrip(IntToDecimal(num));
    if num >= 0 {
      DecimalRoundTrip(num);
    }
  }

  // The grouping the output follows, as an independent definition

  /** Pairs of digits, front to back, of an even-length text. */
  function Pairs(r: string): seq<string>
    requires |r| % 2 == 0
    decreases |r|
  {
    if r == [] then [] else [r[..2]] + Pairs(r[2..])
  }

  /** The groups of the part before the last three digits: a leading group
      of one or two digits, then pairs. */
  function PairGroups(p: string): (gs: seq<string>)
    requires |p| >= 1
    ensures |gs| >= 1 && 1 <= |gs[0]| <= 2
  {
    var h := if |p| % 2 == 1 then 1 else 2;
    [p[..h]] + Pairs(p[h..])
  }

  /** The lakh/crore groups of a digit text: up to three digits stay one
      group; otherwise the last three are a group and the rest is paired. */
  function IndianGroups(d: string): (gs: seq<string>)
    ensures |gs| >= 1
  {
    if |d| <= 3 then [d] else PairGroups(d[..|d| - 3]) + [d[|d| - 3..]]
  }

  /** Each group after a comma. */
  function Prefixed(gs: seq<string>): string {
    if gs == [] then "" else "," + gs[0] + Prefixed(gs[1..])
  }

  /** The groups separated by commas. */
  function Join(gs: seq<string>): string
    requires |gs| >= 1
  {
    gs[0] + Prefixed(gs[1..])
  }

  function Concat(gs: seq<string>): string {
    if gs == [] then "" else gs[0] + Concat(gs[1..])
  }

  lemma {:induction false} PrefixedAppend(gs: seq<string>, x: string)
    ensures Prefixed(gs + [x]) == Prefixed(gs) + "," + x
  {
    if gs != [] {
      assert (gs + [x])[1..] == gs[1..] + [x];
      PrefixedAppend(gs[1..], x);
    } else {
      assert [x][1..] == [];
    }
  }

  lemma JoinAppend(gs: seq<string>, x: string)
    requires |gs| >= 1
    ensures Join(gs + [x]) == Join(gs) + "," + x
  {
    assert (gs + [x])[1..] == gs[1..] + [x];
    PrefixedAppend(gs[1..], x);
  }

  lemma {:induction false} ConcatAppend(a: seq<string>, b: seq<string>)
    ensures Concat(a + b) == Concat(a) + Concat(b)
  {
    if a != [] {
      assert (a + b)[1..] == a[1..] + b;
      ConcatAppend(a[1..], b);
    } else {
      assert a + b == b;
    }
  }

  lemma {:induction false} PairsConcat(r: string)
    requires |r| % 2 == 0
    ensures Concat(Pairs(r)) == r
    ensures forall k :: 0 <= k < |Pairs(r)| ==> |Pairs(r)[k]| == 2
    ensures AllDigits(r) ==> forall k :: 0 <= k < |Pairs(r)| ==> AllDigits(Pairs(r)[k])
    decreases |r|
  {
    if r != [] {
      PairsConcat(r[2..]);
      assert r == r[..2] + r[2..];
      var gs := Pairs(r);
      assert gs[1..] == Pairs(r[2..]);
      forall k | 0 < k < |gs| ensures |gs[k]| == 2 {
        assert gs[k] == Pairs(r[2..])[k - 1];
      }
      if AllDigits(r) {
        forall k | 0 <= k < |gs| ensures AllDigits(gs[k]) {
          if k > 0 {
            assert gs[k] == Pairs(r[2..])[k - 1];
          }
        }
      }
    }
  }

  /** The groups are non-empty digit texts that concatenate to the input; a
      text longer than three digits ends with a group of three, is preceded
      by pairs, and starts with a group of one or two. */
  lemma IndianGroupsShape(d: string)
    requires AllDigits(d)
    ensures var gs := IndianGroups(d);
      Concat(gs) == d &&
      (forall k :: 0 <= k < |gs| ==> AllDigits(gs[k])) &&
      (|d| <= 3 ==> gs == [d]) &&
      (|d| > 3 ==>
        |gs| >= 2 && 1 <= |gs[0]| <= 2 && |gs[|gs| - 1]| == 3 &&
        forall k :: 0 < k < |gs| - 1 ==> |gs[k]| == 2)
  {
    var gs := IndianGroups(d);
    if |d| <= 3 {
      assert Concat(gs) == d + Concat([]);
    } else {
      var p, last := d[..|d| - 3], d[|d| - 3..];
      var pg := PairGroups(p);
      PairGroupsShape(p);
      assert gs == pg + [last];
      ConcatAppend(pg, [last]);
      assert Concat([last]) == last + Concat([]);
      assert d == p + last;
    }
  }

  lemma PairGroupsShape(p: string)
    requires AllDigits(p) && |p| >= 1
    ensures Concat(PairGroups(p)) == p
    ensures forall k :: 0 <= k < |PairGroups(p)| ==> AllDigits(PairGroups(p)[k])
    ensures forall k :: 0 < k < |PairGroups(p)| ==> |PairGroups(p)[k]| == 2
  {
    var h := if |p| % 2 == 1 then 1 else 2;
    var rest := Pairs(p[h..]);
    PairsConcat(p[h..]);
    assert PairGroups(p) == [p[..h]] + rest;
    assert Concat([p[..h]] + rest) == p[..h] + Concat(rest);
    assert p == p[..h] + p[h..];
  }

  /** In an all-digit text, a comma goes in exactly after the first digit
      at an even distance from the end. */
  lemma DigitsCommaAt(p: string, i: nat)
    requires AllDigits(p) && i <= |p|
    ensures DigitRun(p, i) == |p| - i
    ensures CommaAt(p, i) <==> 0 < i < |p| && (|p| - i) % 2 == 0
  {
    RunEndsAt(p, i, |p|);
  }

  lemma {:induction false} TailCommas(p: string, i: nat)
    requires AllDigits(p) && 0 < i <= |p| && (|p| - i) % 2 == 0
    ensures Commas(p, i) == Prefixed(Pairs(p[i..]))
    decreases |p| - i
  {
    if i == |p| {
      DigitsCommaAt(p, i);
      assert Commas(p, i) == "";
      assert p[i..] == [];
    } else {
      PairStart(p, i);
      TailCommas(p, i + 2);
      CommaThen(p, i);
      NoCommaThen(p, i + 1);
      PairPrefix(p, i, Commas(p, i + 2));
    }
  }

  /** Inside a digit text, at an even distance from the end, a comma goes
      before the next two digits and not between them. */
  lemma PairStart(p: string, i: nat)
    requires AllDigits(p) && 0 < i < |p| && (|p| - i) % 2 == 0
    ensures i + 2 <= |p| && (|p| - (i + 2)) % 2 == 0
    ensures CommaAt(p, i) && !CommaAt(p, i + 1)
  {
    DigitsCommaAt(p, i);
    DigitsCommaAt(p, i + 1);
  }

  lemma CommaThen(s: string, i: nat)
    requires i < |s| && CommaAt(s, i)
    ensures Commas(s, i) == "," + [s[i]] + Commas(s, i + 1)
  {
  }

  lemma NoCommaThen(s: string, i: nat)
    requires i < |s| && !CommaAt(s, i)
    ensures Commas(s, i) == [s[i]] + Commas(s, i + 1)
  {
  }

  /** A comma, then the pair at `i`, then the groups after it. */
  lemma PairPrefix(p: string, i: nat, x: string)
    requires i + 2 <= |p| && (|p| - i) % 2 == 0
    requires x == Prefixed(Pairs(p[i + 2..]))
    ensures "," + [p[i]] + ([p[i + 1]] + x) == Prefixed(Pairs(p[i..]))
  {
    var r := p[i..];
    assert r[..2] == [p[i], p[i + 1]];
    assert r[2..] == p[i + 2..];
    PairsStep(r);
  }

  /** The first pair, then the rest. */
  lemma PairsStep(r: string)
    requires |r| % 2 == 0 && |r| >= 2
    ensures Pairs(r) == [r[..2]] + Pairs(r[2..])
    ensures Prefixed(Pairs(r)) == "," + r[..2] + Prefixed(Pairs(r[2..]))
  {
    var gs, rest := Pairs(r), Pairs(r[2..]);
    assert gs == [r[..2]] + rest;
    assert gs[1..] == rest;
  }

  /** On a digit text the regular-expression replacement is the joined pair
      grouping. */
  lemma InsertIsJoin(p: string)
    requires AllDigits(p) && |p| >= 1
    ensures InsertPairCommas(p) == Join(PairGroups(p))
  {
    var h := if |p| % 2 == 1 then 1 else 2;
    var gs := PairGroups(p);
    assert gs[0] == p[..h] && gs[1..] == Pairs(p[h..]);
    assert Join(gs) == p[..h] + Prefixed(Pairs(p[h..]));
    TailCommas(p, h);
    LeadingDigits(p, h);
  }

  /** No comma goes before the first digit, nor after it when an odd number
      of digits follows. */
  lemma LeadingDigits(p: string, h: nat)
    requires AllDigits(p) && |p| >= 1
    requires h == if |p| % 2 == 1 then 1 else 2
    ensures InsertPairCommas(p) == p[..h] + Commas(p, h)
  {
    assert InsertPairCommas(p) == Commas(p, 0);
    DigitsCommaAt(p, 0);
    NoCommaThen(p, 0);
    if h == 2 {
      DigitsCommaAt(p, 1);
      NoCommaThen(p, 1);
      assert p[..2] == [p[0]] + [p[1]];
    } else {
      assert p[..1] == [p[0]];
    }
  }

  /** `formatIndianNumber` of a digit text is its lakh/crore groups joined
      with commas. */
  lemma FormatIsIndianGroups(d: string)
    requires AllDigits(d)
    ensures FormatIndianText(d) == Join(IndianGroups(d))
  {
    if |d| <= 3 {
      assert Join([d]) == d + Prefixed([]);
    } else {
      var front, last := d[..|d| - 3], d[|d| - 3..];
      assert AllDigits(front);
      FormatSplit(d);
      InsertIsJoin(front);
      JoinAppend(PairGroups(front), last);
      assert IndianGroups(d) == PairGroups(front) + [last];
    }
  }

  // Signed amounts

  /** Every comma sits between two digits. */
  predicate CommasBetweenDigits(s: string) {
    forall i :: 0 <= i < |s| && s[i] == ',' ==> 0 < i < |s| - 1 && IsDigit(s[i - 1]) && IsDigit(s[i + 1])
  }

  /** Joined digit groups start and end with a digit and have commas only
      between digits. */
  lemma {:induction false} JoinedGroups(gs: seq<string>)
    requires |gs| >= 1
    requires forall k :: 0 <= k < |gs| ==> |gs[k]| >= 1 && AllDigits(gs[k])
    ensures var s := Join(gs);
      |s| >= 1 && IsDigit(s[0]) && IsDigit(s[|s| - 1]) && CommasBetweenDigits(s)
  {
    var n := |gs|;
    if n == 1 {
      assert Join(gs) == gs[0] + "";
    } else {
      var front := gs[..n - 1];
      JoinedGroups(front);
      assert gs == front + [gs[n - 1]];
      JoinAppend(front, gs[n - 1]);
      var a, b := Join(front), gs[n - 1];
      var s := Join(gs);
      assert s == a + "," + b;
      assert forall j :: 0 <= j < |a| ==> s[j] == a[j];
      assert forall j :: |a| < j < |s| ==> s[j] == b[j - |a| - 1];
      forall i | 0 <= i < |s| && s[i] == ','
        ensures 0 < i < |s| - 1 && IsDigit(s[i - 1]) && IsDigit(s[i + 1])
      {
        if i < |a| {
          assert s[i + 1] == a[i + 1];
        }
      }
    }
  }

  /** Digit grouping of a non-negative number never puts a comma next to a
      non-digit. */
  lemma NaturalCommas(m: nat)
    ensures CommasBetweenDigits(FormatIndianNumber(m))
    ensures |FormatIndianNumber(m)| >= 1 && IsDigit(FormatIndianNumber(m)[0])
  {
    var d := NatToDecimal(m);
    FormatIsIndianGroups(d);
    IndianGroupsShape(d);
    var gs := IndianGroups(d);
    forall k | 0 <= k < |gs| ensures |gs[k]| >= 1 {
      if |d| > 3 && 0 < k < |gs| - 1 {
        assert |gs[k]| == 2;
      }
    }
    JoinedGroups(gs);
  }

  /** Corrected `formatIndianNumber`: groups the magnitude and puts the
      minus sign in front. */
  function FormatIndianNumberSigned(num: int): (r: string)
    ensures CommasBetweenDigits(r)
    ensures RemoveCommas(r) == IntToDecimal(num)
  {
    if num < 0 then
      var m := -num;
      NaturalCommas(m);
      FormatIndianNumberRoundTrip(m);
      SignedCommas(FormatIndianNumber(m));
      RemoveCommasAppend("-", FormatIndianNumber(m));
      "-" + FormatIndianNumber(m)
    else
      NaturalCommas(num);
      FormatIndianNumberRoundTrip(num);
      FormatIndianNumber(num)
  }

  lemma SignedCommas(s: string)
    requires CommasBetweenDigits(s) && |s| >= 1 && IsDigit(s[0])
    ensures CommasBetweenDigits("-" + s)
  {
    var t := "-" + s;
    forall i | 0 <= i < |t| && t[i] == ','
      ensures 0 < i < |t| - 1 && IsDigit(t[i - 1]) && IsDigit(t[i + 1])
    {
      assert t[i] == s[i - 1];
    }
  }

  /** As written, a three-digit negative number gets a comma right after
      the minus sign. */
  lemma SignThenComma()
    ensures FormatIndianNumber(-123) == "-,123"
    ensures !CommasBetweenDigits(FormatIndianNumber(-123))
  {
    assert NatToDecimal(123) == "123";
    assert IntToDecimal(-123) == "-123";
    assert InsertPairCommas("-") == "-";
    var r := FormatIndianNumber(-123);
    assert r == "-,123";
    assert r[1] == ',' && !IsDigit(r[0]);
  }

  /** The decimal length of a number by magnitude. */
  lemma {:induction false} DecimalLength(m: nat)
    ensures m < 100 ==> |NatToDecimal(m)| <= 2
    ensures 100 <= m < 1000 ==> |NatToDecimal(m)| == 3
    ensures m >= 1000 ==> |NatToDecimal(m)| >= 4
  {
    if m >= 10 {
      DecimalLength(m / 10);
    }
  }

  lemma {:induction false} ShiftedRun(q: string, j: nat)
    requires j <= |q|
    ensures DigitRun("-" + q, j + 1) == DigitRun(q, j)
    decreases |q| - j
  {
    var t := "-" + q;
    if j < |q| {
      assert t[j + 1] == q[j];
      ShiftedRun(q, j + 1);
    }
  }

  /** Behind a leading minus sign, the replacement acts as on the text
      without it. */
  lemma {:induction false} ShiftedCommas(q: string, j: nat)
    requires j <= |q|
    ensures Commas("-" + q, j + 1) == Commas(q, j)
    decreases |q| - j
  {
    var t := "-" + q;
    ShiftedRun(q, j);
    if j > 0 {
      assert t[j] == q[j - 1];
    }
    if j < |q| {
      assert t[j + 1] == q[j];
      ShiftedCommas(q, j + 1);
    }
  }

  lemma MinusPrefix(q: string)
    ensures InsertPairCommas("-" + q) == "-" + InsertPairCommas(q)
  {
    ShiftedCommas(q, 0);
    assert !CommaAt("-" + q, 0);
  }

  /** The corrected rendering differs from the written one exactly for the
      negative three-digit numbers. */
  lemma SignedAgreesOutsideThreeDigitNegatives(num: int)
    ensures FormatIndianNumberSigned(num) == FormatIndianNumber(num) <==> !(-999 <= num <= -100)
  {
    if num >= 0 {
      assert FormatIndianNumberSigned(num) == FormatIndianNumber(num);
    } else {
      var m := -num;
      var d := NatToDecimal(m);
      SignedNegative(num);
      DecimalLength(m);
      if m < 100 {
        ShortNegative(d);
      } else if m < 1000 {
        ThreeDigitNegative(d);
      } else {
        LongNegative(d);
      }
    }
  }

  /** Both renderings of a negative number, in terms of its magnitude's
      digits. */
  lemma SignedNegative(num: int)
    requires num < 0
    ensures FormatIndianNumberSigned(num) == "-" + FormatIndianText(NatToDecimal(-num))
    ensures FormatIndianNumber(num) == FormatIndianText("-" + NatToDecimal(-num))
  {
  }

  lemma ShortNegative(d: string)
    requires |d| <= 2
    ensures FormatIndianText("-" + d) == "-" + FormatIndianText(d)
  {
  }

  lemma ThreeDigitNegative(d: string)
    requires |d| == 3 && AllDigits(d)
    ensures FormatIndianText("-" + d) != "-" + FormatIndianText(d)
  {
    var x := "-" + d;
    assert JsSubstring(x, 0, 1) == "-";
    assert JsSubstring(x, 1, 4) == d;
    assert InsertPairCommas("-") == "-";
    assert FormatIndianText(x)[1] == ',';
    assert ("-" + FormatIndianText(d))[1] == d[0];
  }

  lemma LongNegative(d: string)
    requires |d| > 3
    ensures FormatIndianText("-" + d) == "-" + FormatIndianText(d)
  {
    var x := "-" + d;
    var q := d[..|d| - 3];
    assert x[..|x| - 3] == "-" + q;
    assert x[|x| - 3..] == d[|d| - 3..];
    FormatSplit(x);
    FormatSplit(d);
    MinusPrefix(q);
  }

  /** Past three characters, the front is grouped and the last three follow
      a comma. */
  lemma FormatSplit(x: string)
    requires |x| > 3
    ensures FormatIndianText(x) == InsertPairCommas(x[..|x| - 3]) + "," + x[|x| - 3..]
  {
    assert JsSubstring(x, |x| - 3, |x|) == x[|x| - 3..];
    assert JsSubstring(x, 0, |x| - 3) == x[..|x| - 3] != "";
  }

  // formatIndianCurrency

  /** The three renderings of `formatIndianCurrency`. The crore and lakh
      texts show `amount / 10^7` or `amount / 10^5` to two decimals; that
      floating-point rendering is not modelled, only the amount it is
      taken from. */
  datatype CurrencyText = Crores(amount: int) | Lakhs(amount: int) | Plain(text: string)

  /** The branch is chosen by the thresholds of ten million and one hundred
      thousand; the plain branch is the rupee sign and `formatIndianNumber`
      as written. Its commas all sit between digits except for the
      three-digit negative amounts. */
  function FormatIndianCurrency(amount: int): (r: CurrencyText)
    ensures r.Crores? <==> amount >= 10000000
    ensures r.Lakhs? <==> 100000 <= amount < 10000000
    ensures r.Plain? <==> amount < 100000
    ensures !r.Plain? ==> r.amount == amount
    ensures r.Plain? ==> r.text == "₹" + FormatIndianNumber(amount)
    ensures r.Plain? ==> RemoveCommas(r.text[1..]) == IntToDecimal(amount)
    ensures r.Plain? ==> (CommasBetweenDigits(r.text[1..]) <==> !(-999 <= amount <= -100))
  {
    if amount >= 10000000 then Crores(amount)
    else if amount >= 100000 then Lakhs(amount)
    else
      var s := FormatIndianNumber(amount);
      FormatIndianNumberRoundTrip(amount);
      SignedAgreesOutsideThreeDigitNegatives(amount);
      ThreeDigitNegativeComma(amount);
      assert ("₹" + s)[1..] == s;
      Plain("₹" + s)
  }

  /** For the negative three-digit amounts the written formatter puts a
      comma straight after the minus sign. */
  lemma ThreeDigitNegativeComma(num: int)
    ensures -999 <= num <= -100 ==> !CommasBetweenDigits(FormatIndianNumber(num))
  {
    if !(-999 <= num <= -100) {
      return;
    }
    var d := NatToDecimal(-num);
    DecimalLength(-num);
    var x := "-" + d;
    assert JsSubstring(x, 0, 1) == "-";
    assert JsSubstring(x, 1, 4) == d;
    assert InsertPairCommas("-") == "-";
    var r := FormatIndianNumber(num);
    assert r == "-," + d;
    assert r[1] == ',' && !IsDigit(r[0]);
  }

  /** Corrected `formatIndianCurrency`: the plain branch uses the corrected
      grouping. It picks the same branch as the written one and differs
      from it only on the three-digit negative amounts. */
  function FormatIndianCurrencySigned(amount: int): (r: CurrencyText)
    ensures r.Plain? <==> FormatIndianCurrency(amount).Plain?
    ensures !r.Plain? ==> r == FormatIndianCurrency(amount)
    ensures r.Plain? ==> |r.text| >= 2 && r.text[0] == '₹' &&
                         RemoveCommas(r.text[1..]) == IntToDecimal(amount) &&
                         CommasBetweenDigits(r.text[1..])
    ensures r != FormatIndianCurrency(amount) <==> -999 <= amount <= -100
  {
    if amount >= 100000 then FormatIndianCurrency(amount)
    else
      var s := FormatIndianNumberSigned(amount);
      SignedAgreesOutsideThreeDigitNegatives(amount);
      assert ("₹" + s)[1..] == s;
      Plain("₹" + s)
  }
}
