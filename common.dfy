/** Value types and string/sequence helpers shared by every part of the model.

    JavaScript's `undefined`/`null` are `None`; a string field that the source
    tests for truthiness (`if (!x)`, `x || y`) is falsy when it is `None` or "". */
module Common {

  datatype Option<+T> = None | Some(value: T)

  /** A value, or the message of the error the source throws. */
  datatype Result<+R> = Ok(value: R) | Err(message: string)

  /** `a ?? b`: only undefined/null fall back. */
  function OrElse<T>(o: Option<T>, fallback: T): (r: T)
    ensures o.Some? ==> r == o.value
    ensures o.None? ==> r == fallback
  {
    match o
    case Some(v) => v
    case None => fallback
  }

  /** JavaScript truthiness of an optional string. */
  predicate Truthy(s: Option<string>) {
    s.Some? && s.value != ""
  }

  /** `a || b` on optional strings: the first truthy one, else `b`. */
  function OrString(a: Option<string>, b: string): (r: string)
    ensures Truthy(a) ==> r == a.value
    ensures !Truthy(a) ==> r == b
  {
    if Truthy(a) then a.value else b
  }

  /** The three fixed roles of a user account. */
  datatype Role = ADMIN | AGENT | CUSTOMER

  /** The seven parcel statuses of the API. */
  datatype ParcelStatus = BOOKED | ASSIGNED | PICKED_UP | IN_TRANSIT | DELIVERED | FAILED | CANCELLED

  /** The exact value `mantissa * 10^exponent`; every finite double has such a form. No
      arithmetic is done on these values, so two spellings of one value are not identified. */
  datatype Decimal = Decimal(mantissa: int, exponent: int)

  /** A JavaScript number as the model needs it: a finite value, or NaN/Infinity. */
  datatype Number = Finite(value: Decimal) | NonFinite

  /** The number 0. */
  function Zero(): Number {
    Finite(Decimal(0, 0))
  }

  /** A JSON value as read from a payload. Numbers are modelled as integers. */
  datatype Json =
    | JNull
    | JBool(b: bool)
    | JNumber(n: int)
    | JString(s: string)
    | JArray(items: seq<Json>)
    | JObject(fields: map<string, Json>)

  // ---------------------------------------------------------------------------
  // Strings

  predicate StartsWith(s: string, prefix: string) {
    |prefix| <= |s| && s[..|prefix|] == prefix
  }

  predicate EndsWith(s: string, suffix: string) {
    |suffix| <= |s| && s[|s| - |suffix|..] == suffix
  }

  predicate OccursAt(hay: string, needle: string, i: int) {
    0 <= i && i + |needle| <= |hay| && hay[i..i + |needle|] == needle
  }

  /** `hay.includes(needle)`; the empty needle occurs in every string. */
  predicate Includes(hay: string, needle: string) {
    exists i | 0 <= i <= |hay| - |needle| :: OccursAt(hay, needle, i)
  }

  lemma IncludesEmpty(hay: string)
    ensures Includes(hay, "")
  {
    assert OccursAt(hay, "", 0);
  }

  /** Case mapping of `toLowerCase` restricted to the ASCII letters. */
  function LowerChar(c: char): (r: char)
    ensures 'A' <= c <= 'Z' ==> 'a' <= r <= 'z' && r as int == c as int + 32
    ensures !('A' <= c <= 'Z') ==> r == c
  {
    if 'A' <= c <= 'Z' then (c as int + 32) as char else c
  }

  function Lower(s: string): (r: string)
    ensures |r| == |s|
    ensures forall i | 0 <= i < |s| :: r[i] == LowerChar(s[i])
    ensures forall i | 0 <= i < |r| :: !('A' <= r[i] <= 'Z')
  {
    if s == [] then [] else [LowerChar(s[0])] + Lower(s[1..])
  }

  lemma {:induction false} LowerIdempotent(s: string)
    ensures Lower(Lower(s)) == Lower(s)
  {
    var l := Lower(s);
    assert |Lower(l)| == |l|;
    forall i | 0 <= i < |l| ensures Lower(l)[i] == l[i] {
      assert !('A' <= l[i] <= 'Z');
    }
  }

  /** The WhiteSpace and LineTerminator code points that `String.prototype.trim` removes. */
  predicate IsJsWhitespace(c: char) {
    var n := c as int;
    n == 0x09 || n == 0x0A || n == 0x0B || n == 0x0C || n == 0x0D || n == 0x20 ||
    n == 0xA0 || n == 0x1680 || (0x2000 <= n <= 0x200A) || n == 0x2028 || n == 0x2029 ||
    n == 0x202F || n == 0x205F || n == 0x3000 || n == 0xFEFF
  }

  predicate AllWhitespace(s: string) {
    forall i | 0 <= i < |s| :: IsJsWhitespace(s[i])
  }

  function TrimStart(s: string): (r: string)
    ensures |r| <= |s| && r == s[|s| - |r|..]
    ensures AllWhitespace(s[..|s| - |r|])
    ensures r != [] ==> !IsJsWhitespace(r[0])
  {
    if s != [] && IsJsWhitespace(s[0]) then
      var r := TrimStart(s[1..]);
      DropFirstSlices(s, |s| - 1 - |r|);
      AllWhitespaceCons(s[0], s[1..][..|s| - 1 - |r|]);
      r
    else s
  }

  lemma DropFirstSlices(s: string, k: nat)
    requires k < |s|
    ensures s[1..][k..] == s[k + 1..]
    ensures s[..k + 1] == [s[0]] + s[1..][..k]
  {
  }

  lemma AllWhitespaceCons(c: char, a: string)
    requires IsJsWhitespace(c) && AllWhitespace(a)
    ensures AllWhitespace([c] + a)
  {
    forall i | 0 <= i < |[c] + a| ensures IsJsWhitespace(([c] + a)[i]) {
      if i > 0 { assert ([c] + a)[i] == a[i - 1]; }
    }
  }

  function TrimEnd(s: string): (r: string)
    ensures |r| <= |s| && r == s[..|r|]
    ensures AllWhitespace(s[|r|..])
    ensures r != [] ==> !IsJsWhitespace(r[|r| - 1])
  {
    if s != [] && IsJsWhitespace(s[|s| - 1]) then
      var r := TrimEnd(s[..|s| - 1]);
      DropLastSlices(s, |r|);
      AllWhitespaceSnoc(s[..|s| - 1][|r|..], s[|s| - 1]);
      r
    else s
  }

  lemma DropLastSlices(s: string, k: nat)
    requires k < |s|
    ensures s[..|s| - 1][..k] == s[..k]
    ensures s[k..] == s[..|s| - 1][k..] + [s[|s| - 1]]
  {
  }

  lemma AllWhitespaceSnoc(a: string, c: char)
    requires AllWhitespace(a) && IsJsWhitespace(c)
    ensures AllWhitespace(a + [c])
  {
    forall i | 0 <= i < |a + [c]| ensures IsJsWhitespace((a + [c])[i]) {
      if i < |a| { assert (a + [c])[i] == a[i]; }
    }
  }

  /** `s.trim()`. */
  function Trim(s: string): (r: string)
    ensures |r| <= |s|
    ensures r != [] ==> !IsJsWhitespace(r[0]) && !IsJsWhitespace(r[|r| - 1])
  {
    TrimEnd(TrimStart(s))
  }

  /** The trimmed string is a slice of `s` with only whitespace cut off at either end. */
  lemma TrimIsSlice(s: string)
    ensures exists i | 0 <= i <= |s| - |Trim(s)| ::
      OccursAt(s, Trim(s), i) && AllWhitespace(s[..i]) && AllWhitespace(s[i + |Trim(s)|..])
  {
    TrimmedSlice(s, TrimStart(s), TrimEnd(TrimStart(s)));
  }

  /** A whitespace-free prefix `r` of a whitespace-free suffix `a` of `s` is such a slice. */
  lemma TrimmedSlice(s: string, a: string, r: string)
    requires |a| <= |s| && a == s[|s| - |a|..] && AllWhitespace(s[..|s| - |a|])
    requires |r| <= |a| && r == a[..|r|] && AllWhitespace(a[|r|..])
    ensures exists j | 0 <= j <= |s| - |r| ::
      OccursAt(s, r, j) && AllWhitespace(s[..j]) && AllWhitespace(s[j + |r|..])
  {
    PrefixOfSuffixSlices(s, a, r);
    assert OccursAt(s, r, |s| - |a|);
  }

  /** A prefix `r` of a suffix `a` of `s` sits in `s` where `a` starts. */
  lemma PrefixOfSuffixSlices(s: string, a: string, r: string)
    requires |a| <= |s| && a == s[|s| - |a|..]
    requires |r| <= |a| && r == a[..|r|]
    ensures s[|s| - |a|..|s| - |a| + |r|] == r
    ensures s[|s| - |a| + |r|..] == a[|r|..]
  {
  }

  /** A string with no whitespace at either end is its own trim. */
  lemma TrimNoEdges(s: string)
    requires s != [] ==> !IsJsWhitespace(s[0]) && !IsJsWhitespace(s[|s| - 1])
    ensures Trim(s) == s
  {
    if s != [] {
      assert TrimStart(s) == s;
    }
  }

  lemma {:induction false} TrimStartEmptyIff(s: string)
    ensures TrimStart(s) == "" <==> AllWhitespace(s)
  {
    if s != [] && IsJsWhitespace(s[0]) {
      TrimStartEmptyIff(s[1..]);
      assert AllWhitespace(s) <==> AllWhitespace(s[1..]) by {
        if AllWhitespace(s[1..]) {
          forall k | 0 <= k < |s| ensures IsJsWhitespace(s[k]) {
            if k > 0 { assert s[k] == s[1..][k - 1]; }
          }
        }
      }
    } else if s != [] {
      assert !AllWhitespace(s);
    }
  }

  /** The trimmed string is empty exactly when the input is all whitespace. */
  lemma TrimEmptyIff(s: string)
    ensures Trim(s) == "" <==> AllWhitespace(s)
  {
    var a := TrimStart(s);
    TrimStartEmptyIff(s);
  }

  // ---------------------------------------------------------------------------
  // Decimal numerals

  predicate IsDigit(c: char) {
    '0' <= c <= '9'
  }

  predicate AllDigits(s: string) {
    forall i | 0 <= i < |s| :: IsDigit(s[i])
  }

  function DigitChar(d: nat): (c: char)
    requires d < 10
    ensures IsDigit(c) && c as int - '0' as int == d
  {
    ('0' as int + d) as char
  }

  /** `Number(digits)` for a run of decimal digits. */
  function DigitsValue(s: string): nat
    requires AllDigits(s)
  {
    if s == [] then 0 else DigitsValue(s[..|s| - 1]) * 10 + (s[|s| - 1] as int - '0' as int)
  }

  /** `n.toString()` for a non-negative integer: the canonical decimal numeral. */
  function NatToDecimal(n: nat): (r: string)
    ensures |r| >= 1 && AllDigits(r)
    ensures r[0] == '0' ==> n == 0
    ensures n >= 10 ==> |r| >= 2
  {
    if n < 10 then [DigitChar(n)] else NatToDecimal(n / 10) + [DigitChar(n % 10)]
  }

  /** Reading back the numeral gives the number: the decimal rendering is injective. */
  lemma {:induction false} DecimalRoundTrip(n: nat)
    ensures DigitsValue(NatToDecimal(n)) == n
  {
    var r := NatToDecimal(n);
    if n >= 10 {
      DecimalRoundTrip(n / 10);
      assert r[..|r| - 1] == NatToDecimal(n / 10);
    }
  }

  lemma DecimalInjective(a: nat, b: nat)
    ensures NatToDecimal(a) == NatToDecimal(b) <==> a == b
  {
    if NatToDecimal(a) == NatToDecimal(b) {
      DecimalRoundTrip(a);
      DecimalRoundTrip(b);
    }
  }

  /** `String(i)` for an integer. */
  function IntToDecimal(i: int): (r: string)
    ensures i >= 0 ==> r == NatToDecimal(i)
    ensures i < 0 ==> r == "-" + NatToDecimal(-i)
  {
    if i >= 0 then NatToDecimal(i) else "-" + NatToDecimal(-i)
  }

  // ---------------------------------------------------------------------------
  // Sequences

  /** `r` is `s` with some elements dropped and the rest in their original order. */
  ghost predicate Subsequence<T>(r: seq<T>, s: seq<T>)
    decreases |s|
  {
    if r == [] then true
    else if s == [] then false
    else (r[0] == s[0] && Subsequence(r[1..], s[1..])) || Subsequence(r, s[1..])
  }

  lemma {:induction false} SubsequenceRefl<T>(s: seq<T>)
    ensures Subsequence(s, s)
  {
    if s != [] {
      SubsequenceRefl(s[1..]);
    }
  }

  /** `s.filter(f)`: keeps exactly the elements satisfying `f`, with their multiplicity, in order. */
  function Filter<T>(s: seq<T>, f: T -> bool): (r: seq<T>)
    ensures |r| <= |s|
    ensures forall x | x in r :: x in s && f(x)
    ensures forall x | x in s :: multiset(r)[x] == if f(x) then multiset(s)[x] else 0
    ensures Subsequence(r, s)
  {
    if s == [] then []
    else
      var rest := Filter(s[1..], f);
      assert s == [s[0]] + s[1..];
      if f(s[0]) then [s[0]] + rest else rest
  }

  lemma FilterMembership<T>(s: seq<T>, f: T -> bool, x: T)
    ensures x in Filter(s, f) <==> x in s && f(x)
  {
    var r := Filter(s, f);
    if x in s && f(x) {
      assert multiset(s)[x] > 0;
      assert multiset(r)[x] > 0;
    }
  }

  /** Filtering with a predicate every element satisfies is the identity. */
  lemma {:induction false} FilterAll<T>(s: seq<T>, f: T -> bool)
    requires forall x | x in s :: f(x)
    ensures Filter(s, f) == s
  {
    if s != [] {
      FilterAll(s[1..], f);
    }
  }
  lemma {:induction false} FilterNone<T>(s: seq<T>, f: T -> bool)
    requires forall x | x in s :: !f(x)
    ensures Filter(s, f) == []
  {
    if s != [] {
      FilterNone(s[1..], f);
    }
  }

  lemma ConcatAssoc<T>(a: seq<T>, b: seq<T>, c: seq<T>)
    ensures a + (b + c) == (a + b) + c
  {
  }

  lemma SnocTail<T>(s: seq<T>, x: T)
    requires s != []
    ensures (s + [x])[0] == s[0] && (s + [x])[1..] == s[1..] + [x]
  {
  }

  /** One step of `Filter`. */
  lemma FilterCons<T>(s: seq<T>, f: T -> bool)
    requires s != []
    ensures Filter(s, f) == (if f(s[0]) then [s[0]] else []) + Filter(s[1..], f)
  {
  }

  /** Filtering distributes over appending one element at the end. */
  lemma {:induction false} FilterSnoc<T>(s: seq<T>, x: T, f: T -> bool)
    ensures Filter(s + [x], f) == Filter(s, f) + (if f(x) then [x] else [])
  {
    var t := s + [x];
    var tail := if f(x) then [x] else [];
    FilterCons(t, f);
    if s == [] {
      assert t[1..] == [];
    } else {
      SnocTail(s, x);
      FilterCons(s, f);
      FilterSnoc(s[1..], x, f);
      ConcatAssoc(if f(s[0]) then [s[0]] else [], Filter(s[1..], f), tail);
    }
  }

  /** Filtering by a predicate and by its negation splits a sequence: every element lands in
      exactly one of the two parts. */
  lemma FilterComplement<T>(s: seq<T>, f: T -> bool, g: T -> bool)
    requires forall x | x in s :: g(x) == !f(x)
    ensures multiset(Filter(s, f)) + multiset(Filter(s, g)) == multiset(s)
    ensures |Filter(s, f)| + |Filter(s, g)| == |s|
  {
    var a, b := Filter(s, f), Filter(s, g);
    forall x ensures (multiset(a) + multiset(b))[x] == multiset(s)[x] {
      if x !in s {
        assert x !in a && x !in b;
      }
    }
    assert multiset(a) + multiset(b) == multiset(s);
    assert |multiset(a) + multiset(b)| == |multiset(s)|;
  }

  /** `text?.toLowerCase().includes(query)`: false when the field is absent. */
  predicate ContainsQuery(text: Option<string>, query: string) {
    text.Some? && Includes(Lower(text.value), query)
  }

  /** The search box of the list pages: `if (!search) return items`, otherwise the items the
      matcher (already bound to the lower-cased query) accepts. */
  function SearchFilter<T>(items: seq<T>, search: string, matches: T -> bool): (r: seq<T>)
    ensures search == "" ==> r == items
    ensures search != "" ==> forall x | x in items :: multiset(r)[x] == if matches(x) then multiset(items)[x] else 0
    ensures search != "" ==> forall x | x in r :: matches(x)
    ensures Subsequence(r, items)
  {
    SubsequenceRefl(items);
    if search == "" then items else Filter(items, matches)
  }

  /** `s.map((x) => (matches(x) ? replacement : x))`. */
  function ReplaceMatching<T>(s: seq<T>, matches: T -> bool, replacement: T): (r: seq<T>)
    ensures |r| == |s|
    ensures forall i | 0 <= i < |s| :: r[i] == if matches(s[i]) then replacement else s[i]
  {
    if s == [] then [] else [if matches(s[0]) then replacement else s[0]] + ReplaceMatching(s[1..], matches, replacement)
  }

  /** Replacing twice is replacing once, when the replacement itself matches. */
  lemma ReplaceMatchingIdempotent<T>(s: seq<T>, matches: T -> bool, replacement: T)
    requires matches(replacement)
    ensures ReplaceMatching(ReplaceMatching(s, matches, replacement), matches, replacement)
         == ReplaceMatching(s, matches, replacement)
  {
  }

  function Min(a: int, b: int): int {
    if a <= b then a else b
  }

  /** `Math.ceil(a / b)` for integers and a non-zero divisor. */
  function CeilDiv(a: int, b: int): (c: int)
    requires b != 0
    ensures b > 0 ==> (c - 1) * b < a <= c * b
    ensures b < 0 ==> (c - 1) * -b < -a <= c * -b
  {
    if b > 0 then
      assert -a == ((-a) / b) * b + (-a) % b;
      -((-a) / b)
    else
      assert a == (a / -b) * -b + a % -b;
      -(a / -b)
  }

  /** One `socket.emit(event, arg)`. */
  datatype Emit = Emit(event: string, arg: string)

  /** Emits sent on socket `s`. */
  function Tagged(s: nat, emits: seq<Emit>): (r: seq<(nat, Emit)>)
    ensures |r| == |emits|
    ensures forall i | 0 <= i < |r| :: r[i] == (s, emits[i])
  {
    if emits == [] then [] else [(s, emits[0])] + Tagged(s, emits[1..])
  }
}
