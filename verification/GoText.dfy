// The few pieces of Go's strings and strconv packages that decide how labels and
// options are read.  Loops and specifications in this project walk sequences from the
// left, so the recursive functions below peel off the LAST element.
module GoText {

  datatype Option<+T> = None | Some(value: T)

  // ---------------------------------------------------------------- strings.Split

  function Split(s: string, sep: char): (parts: seq<string>)
    ensures |parts| >= 1
  {
    if s == "" then [""]
    else
      var parts := Split(s[..|s| - 1], sep);
      var last := s[|s| - 1];
      if last == sep then parts + [""]
      else parts[..|parts| - 1] + [parts[|parts| - 1] + [last]]
  }

  function Join(parts: seq<string>, sep: char): string
    requires |parts| >= 1
  {
    if |parts| == 1 then parts[0]
    else Join(parts[..|parts| - 1], sep) + [sep] + parts[|parts| - 1]
  }

  predicate Clean(parts: seq<string>, sep: char) {
    forall i :: 0 <= i < |parts| ==> sep !in parts[i]
  }

  // Split cuts at every separator ...
  lemma {:induction false} SplitClean(s: string, sep: char)
    ensures Clean(Split(s, sep), sep)
  {
    if s != "" {
      SplitClean(s[..|s| - 1], sep);
    }
  }

  // ... and nowhere else: joining the parts gives the text back.
  lemma {:induction false} SplitJoin(s: string, sep: char)
    ensures Join(Split(s, sep), sep) == s
  {
    if s != "" {
      var front, last := s[..|s| - 1], s[|s| - 1];
      SplitJoin(front, sep);
      assert s == front + [last];
      if last == sep {
        JoinNext(Split(front, sep), sep);
      } else {
        JoinLonger(Split(front, sep), last, sep);
      }
    }
  }

  lemma JoinNext(parts: seq<string>, sep: char)
    requires |parts| >= 1
    ensures Join(parts + [""], sep) == Join(parts, sep) + [sep]
  {
    assert (parts + [""])[..|parts|] == parts;
  }

  lemma JoinLonger(parts: seq<string>, c: char, sep: char)
    requires |parts| >= 1
    ensures Join(parts[..|parts| - 1] + [parts[|parts| - 1] + [c]], sep) == Join(parts, sep) + [c]
  {
    var n := |parts| - 1;
    assert (parts[..n] + [parts[n] + [c]])[..n] == parts[..n];
  }

  // The parts with t put at the end of the last one.
  function Glue(parts: seq<string>, t: string): seq<string>
    requires |parts| >= 1
  {
    parts[..|parts| - 1] + [parts[|parts| - 1] + t]
  }

  lemma GlueMore(parts: seq<string>, t: string, u: string)
    requires |parts| >= 1
    ensures Glue(Glue(parts, t), u) == Glue(parts, t + u)
    ensures Glue(parts, "") == parts
  {
    var last := parts[|parts| - 1];
    assert last + t + u == last + (t + u) && last + "" == last;
    assert Glue(parts, t)[..|parts| - 1] == parts[..|parts| - 1];
  }

  lemma SplitChar(s: string, c: char, sep: char)
    requires c != sep
    ensures Split(s + [c], sep) == Glue(Split(s, sep), [c])
  {
    assert (s + [c])[..|s|] == s;
  }

  lemma SplitSep(s: string, sep: char)
    ensures Split(s + [sep], sep) == Split(s, sep) + [""]
  {
    assert (s + [sep])[..|s|] == s;
  }

  lemma {:induction false} SplitLast(s: string, t: string, sep: char)
    requires sep !in t
    ensures Split(s + t, sep) == Glue(Split(s, sep), t)
  {
    if t == "" {
      assert s + t == s;
      GlueMore(Split(s, sep), "", "");
    } else {
      var front, last := t[..|t| - 1], t[|t| - 1];
      assert t == front + [last] && last in t;
      assert s + front + [last] == s + t;
      SplitLast(s, front, sep);
      SplitChar(s + front, last, sep);
      GlueMore(Split(s, sep), front, [last]);
    }
  }

  // Parts without a separator are what splitting their join gives back.
  lemma {:induction false} SplitOfJoin(parts: seq<string>, sep: char)
    requires |parts| >= 1 && Clean(parts, sep)
    ensures Split(Join(parts, sep), sep) == parts
  {
    var last := parts[|parts| - 1];
    assert "" + last == last;
    if |parts| == 1 {
      SplitLast("", last, sep);
      assert parts == [last];
    } else {
      var front := parts[..|parts| - 1];
      SplitOfJoin(front, sep);
      SplitSep(Join(front, sep), sep);
      SplitLast(Join(front, sep) + [sep], last, sep);
      assert Glue(front + [""], last) == parts;
    }
  }

  // ------------------------------------------------------------------ strings.Cut

  datatype CutResult = CutResult(before: string, after: string, found: bool)

  function IndexOf(s: string, sep: char): (i: nat)
    ensures i <= |s|
    ensures sep !in s[..i]
    ensures i < |s| ==> s[i] == sep
    ensures i == |s| <==> sep !in s
  {
    if s == "" || s[0] == sep then 0
    else
      var rest := IndexOf(s[1..], sep);
      assert s[..rest + 1] == [s[0]] + s[1..][..rest];
      rest + 1
  }

  function Cut(s: string, sep: char): (r: CutResult)
    ensures sep !in r.before
    ensures r.found <==> sep in s
    ensures r.found ==> s == r.before + [sep] + r.after
    ensures !r.found ==> r.before == s && r.after == ""
  {
    var i := IndexOf(s, sep);
    if i < |s| then
      assert s == s[..i] + [s[i]] + s[i + 1..];
      CutResult(s[..i], s[i + 1..], true)
    else
      CutResult(s, "", false)
  }

  // A text is cut at its first separator in one way only.
  lemma CutOnce(a: string, x: string, b: string, y: string, sep: char)
    requires sep !in a && sep !in b && a + [sep] + x == b + [sep] + y
    ensures a == b && x == y
  {
    var k := a + [sep] + x;
    assert k[|a|] == sep && k[|b|] == sep;
    assert k[..|a|] == a && k[..|b|] == b;
    assert k[|a| + 1..] == x && k[|b| + 1..] == y;
  }

  // ------------------------------------------------------------ strings.TrimSpace

  // The characters Unicode marks White_Space.
  predicate IsSpace(c: char) {
    || '\t' <= c <= '\r' || c == ' ' || c == '\U{0085}' || c == '\U{00A0}' || c == '\U{1680}'
    || '\U{2000}' <= c <= '\U{200A}' || c == '\U{2028}' || c == '\U{2029}' || c == '\U{202F}'
    || c == '\U{205F}' || c == '\U{3000}'
  }

  function TrimSpace(s: string): (t: string)
    decreases |s|
    ensures t != "" ==> !IsSpace(t[0]) && !IsSpace(t[|t| - 1])
    ensures (forall c <- s :: !IsSpace(c)) ==> t == s
  {
    if s == "" then ""
    else if IsSpace(s[0]) then TrimSpace(s[1..])
    else if IsSpace(s[|s| - 1]) then TrimSpace(s[..|s| - 1])
    else s
  }

  predicate AllSpace(s: string) {
    forall c <- s :: IsSpace(c)
  }

  lemma TrimStep(s: string)
    ensures s != "" && IsSpace(s[0]) ==> TrimSpace(s) == TrimSpace(s[1..])
    ensures s != "" && !IsSpace(s[0]) && IsSpace(s[|s| - 1]) ==> TrimSpace(s) == TrimSpace(s[..|s| - 1])
    ensures s == "" || (!IsSpace(s[0]) && !IsSpace(s[|s| - 1])) ==> TrimSpace(s) == s
  {
  }

  lemma Attach(s: string, before: string, middle: string, after: string)
    requires s != "" && AllSpace(before) && AllSpace(after)
    ensures s[1..] == before + middle + after && IsSpace(s[0]) ==>
              s == ([s[0]] + before) + middle + after && AllSpace([s[0]] + before)
    ensures s[..|s| - 1] == before + middle + after && IsSpace(s[|s| - 1]) ==>
              s == before + middle + (after + [s[|s| - 1]]) && AllSpace(after + [s[|s| - 1]])
  {
    assert s == [s[0]] + s[1..] && s == s[..|s| - 1] + [s[|s| - 1]];
  }

  lemma {:induction false} TrimSpaceCuts(s: string) returns (before: string, after: string)
    ensures s == before + TrimSpace(s) + after && AllSpace(before) && AllSpace(after)
    decreases |s|
  {
    before, after := "", "";
    TrimStep(s);
    if s != "" && IsSpace(s[0]) {
      before, after := TrimSpaceCuts(s[1..]);
      Attach(s, before, TrimSpace(s[1..]), after);
      before := [s[0]] + before;
    } else if s != "" && IsSpace(s[|s| - 1]) {
      before, after := TrimSpaceCuts(s[..|s| - 1]);
      Attach(s, before, TrimSpace(s[..|s| - 1]), after);
      after := after + [s[|s| - 1]];
    }
  }

  // ----------------------------------------------------------------- strconv.Atoi

  predicate IsDigit(c: char) { '0' <= c <= '9' }

  function DigitsValue(s: string): nat
    requires forall c <- s :: IsDigit(c)
  {
    if s == "" then 0
    else
      var last := s[|s| - 1];
      assert last in s && IsDigit(last);
      10 * DigitsValue(s[..|s| - 1]) + (last as int - '0' as int)
  }

  const MIN_INT64: int := -0x8000_0000_0000_0000
  const MAX_INT64: int := 0x7fff_ffff_ffff_ffff
  type Int64 = x: int | MIN_INT64 <= x <= MAX_INT64

  // An optional sign, then at least one decimal digit, and a value that fits an int64.
  function Atoi(s: string): Option<Int64> {
    var signed := s != "" && (s[0] == '-' || s[0] == '+');
    var digits := if signed then s[1..] else s;
    if digits == "" || exists c <- digits :: !IsDigit(c) then None
    else
      var magnitude: int := DigitsValue(digits);
      var value := if signed && s[0] == '-' then -magnitude else magnitude;
      if MIN_INT64 <= value <= MAX_INT64 then Some(value) else None
  }

  // Decimal numerals as one writes them.
  function Numeral(n: nat): string {
    var last := [('0' as int + n % 10) as char];
    if n < 10 then last else Numeral(n / 10) + last
  }

  function Zeros(n: nat): string { seq(n, _ => '0') }

  lemma {:induction false} NumeralReads(n: nat)
    ensures Numeral(n) != "" && forall c <- Numeral(n) :: IsDigit(c)
    ensures DigitsValue(Numeral(n)) == n
  {
    if n >= 10 {
      NumeralReads(n / 10);
      assert Numeral(n)[..|Numeral(n)| - 1] == Numeral(n / 10);
    } else {
      assert Numeral(n)[..|Numeral(n)| - 1] == "";
    }
  }

  lemma {:induction false} ZerosAdd(z: nat, t: string)
    requires forall c <- t :: IsDigit(c)
    ensures forall c <- Zeros(z) + t :: IsDigit(c)
    ensures DigitsValue(Zeros(z) + t) == DigitsValue(t)
    decreases |t|, z
  {
    var s := Zeros(z) + t;
    if t != "" {
      ZerosAdd(z, t[..|t| - 1]);
      assert s[..|s| - 1] == Zeros(z) + t[..|t| - 1];
      assert s[|s| - 1] == t[|t| - 1];
    } else if z > 0 {
      ZerosAdd(z - 1, t);
      assert s[..|s| - 1] == Zeros(z - 1) + t;
    }
  }

  lemma NumeralNext(n: nat, d: nat)
    requires n > 0 && d < 10
    ensures Numeral(10 * n + d) == Numeral(n) + [('0' as int + d) as char]
  {
  }

  lemma DigitsNext(front: string, last: char)
    requires (forall c <- front :: IsDigit(c)) && IsDigit(last)
    ensures forall c <- front + [last] :: IsDigit(c)
    ensures DigitsValue(front + [last]) == 10 * DigitsValue(front) + (last as int - '0' as int)
  {
    assert (front + [last])[..|front|] == front;
  }

  ghost predicate PaddedNumeral(digits: string, n: nat) {
    exists z: nat :: digits == Zeros(z) + Numeral(n)
  }

  lemma PaddedNext(front: string, v: nat, last: char)
    requires PaddedNumeral(front, v) && IsDigit(last)
    ensures PaddedNumeral(front + [last], 10 * v + (last as int - '0' as int))
  {
    var z: nat :| front == Zeros(z) + Numeral(v);
    var d: nat := last as int - '0' as int;
    if v == 0 {
      assert Zeros(z) + "0" == Zeros(z + 1);
      assert front + [last] == Zeros(z + 1) + Numeral(d);
    } else {
      NumeralNext(v, d);
      assert front + [last] == Zeros(z) + Numeral(10 * v + d);
    }
  }

  lemma PaddedDigit(last: char)
    requires IsDigit(last)
    ensures PaddedNumeral([last], last as int - '0' as int)
  {
    assert [last] == Zeros(0) + Numeral(last as int - '0' as int);
  }

  lemma PaddedStep(front: string, last: char)
    requires (forall c <- front :: IsDigit(c)) && IsDigit(last)
    requires front != "" ==> PaddedNumeral(front, DigitsValue(front))
    ensures (forall c <- front + [last] :: IsDigit(c)) && PaddedNumeral(front + [last], DigitsValue(front + [last]))
  {
    DigitsNext(front, last);
    if front == "" {
      PaddedDigit(last);
      assert front + [last] == [last];
    } else {
      PaddedNext(front, DigitsValue(front), last);
    }
  }

  // Digits are a numeral behind zeros.
  lemma {:induction false} DigitsWritten(s: string)
    requires s != "" && forall c <- s :: IsDigit(c)
    ensures PaddedNumeral(s, DigitsValue(s))
  {
    var front, last := s[..|s| - 1], s[|s| - 1];
    if front != "" {
      DigitsWritten(front);
    }
    PaddedStep(front, last);
    assert s == front + [last];
  }

  // How an integer may be written: perhaps a sign, perhaps zeros, and its numeral.
  ghost predicate WrittenAs(s: string, i: int) {
    || (i >= 0 && PaddedNumeral(s, i))
    || (i >= 0 && s != "" && s[0] == '+' && PaddedNumeral(s[1..], i))
    || (i <= 0 && s != "" && s[0] == '-' && PaddedNumeral(s[1..], -i))
  }

  // Atoi reads exactly the written forms of the 64-bit integers.
  lemma AtoiExact(s: string, i: Int64)
    ensures Atoi(s) == Some(i) <==> WrittenAs(s, i)
  {
    var n: int := i;
    if n >= 0 && PaddedNumeral(s, n) {
      PaddedReads(s, n);
    } else if n >= 0 && s != "" && s[0] == '+' && PaddedNumeral(s[1..], n) {
      PaddedReads(s[1..], n);
    } else if n <= 0 && s != "" && s[0] == '-' && PaddedNumeral(s[1..], -n) {
      PaddedReads(s[1..], -n);
    }
    if Atoi(s) == Some(i) {
      var digits := if s[0] == '-' || s[0] == '+' then s[1..] else s;
      DigitsWritten(digits);
    }
  }

  lemma PaddedReads(digits: string, n: nat)
    requires PaddedNumeral(digits, n)
    ensures digits != "" && (forall c <- digits :: IsDigit(c)) && IsDigit(digits[0]) && DigitsValue(digits) == n
  {
    var z: nat :| digits == Zeros(z) + Numeral(n);
    NumeralReads(n);
    ZerosAdd(z, Numeral(n));
    assert digits[0] in digits;
  }

  // ----------------------------------------- strconv.ParseBool, strconv.FormatBool

  function ParseBool(s: string): Option<bool> {
    if s in {"1", "t", "T", "TRUE", "true", "True"} then Some(true)
    else if s in {"0", "f", "F", "FALSE", "false", "False"} then Some(false)
    else None
  }

  function Upper(s: string): string {
    seq(|s|, i requires 0 <= i < |s| => if 'a' <= s[i] <= 'z' then ((s[i] as int) - 32) as char else s[i])
  }

  // A word or its first letter, in lower or in upper case, or the word with a capital.
  predicate Spelling(s: string, word: string)
    requires word != ""
  {
    s == word[..1] || s == Upper(word[..1]) || s == word || s == Upper(word) || s == Upper(word[..1]) + word[1..]
  }

  lemma ParseBoolExact(s: string)
    ensures ParseBool(s) == Some(true) <==> s == "1" || Spelling(s, "true")
    ensures ParseBool(s) == Some(false) <==> s == "0" || Spelling(s, "false")
  {
    assert Upper("true") == "TRUE" && Upper("false") == "FALSE";
    assert "true"[..1] == "t" && Upper("t") == "T" && "true"[1..] == "rue" && "T" + "rue" == "True";
    assert "false"[..1] == "f" && Upper("f") == "F" && "false"[1..] == "alse" && "F" + "alse" == "False";
  }

  function FormatBool(b: bool): (s: string)
    ensures ParseBool(s) == Some(b)
  {
    if b then "true" else "false"
  }

  // A Go map read: the zero value when the key is absent.
  function Get(m: map<string, string>, k: string): string {
    if k in m then m[k] else ""
  }

  // ------------------------------------------------------------------- sort.Ints

  predicate IsLeast(m: Int64, s: set<Int64>) {
    m in s && forall x <- s :: m <= x
  }

  lemma Member<T>(s: set<T>) returns (x: T)
    requires s != {}
    ensures x in s
  {
    x :| x in s;
  }

  lemma {:induction false} LeastExists(s: set<Int64>)
    requires |s| > 0
    ensures exists m :: IsLeast(m, s)
    decreases |s|
  {
    var a := Member(s);
    var rest := s - {a};
    if rest == {} {
      assert s == {a};
      assert IsLeast(a, s);
    } else {
      LeastExists(rest);
      var m :| IsLeast(m, rest);
      var least := if a < m then a else m;
      forall x | x in s ensures least <= x {
        assert x == a || x in rest;
      }
      assert IsLeast(least, s);
    }
  }

  predicate Ascending(r: seq<Int64>) {
    forall i, j :: 0 <= i < j < |r| ==> r[i] < r[j]
  }

  predicate SameElements(r: seq<Int64>, s: set<Int64>) {
    (forall x <- r :: x in s) && (forall x <- s :: x in r)
  }

  function Min(s: set<Int64>): (m: Int64)
    requires s != {}
    ensures IsLeast(m, s)
  {
    LeastExists(s);
    var m :| IsLeast(m, s);
    m
  }

  function SortedKeys(s: set<Int64>): (r: seq<Int64>)
    ensures Ascending(r) && SameElements(r, s)
  {
    if s == {} then []
    else
      var m := Min(s);
      var rest := SortedKeys(s - {m});
      assert forall i :: 0 <= i < |rest| ==> rest[i] in s - {m};
      [m] + rest
  }
}
