/** Account identity: `Config::formatIndex` and `Config::derivedEmail`.

    The substitution loop works in place with a moving position; it is proved to compute
    the left-to-right replacement `ReplaceAll`, and `ReplaceAll` is proved to be the join
    of the pieces of a split.  From that: two clients derive the same account exactly when
    the pattern has lost its `{index}` placeholder.
 */
module DerivedEmail {

  /** The largest value of the 32-bit client index. */
  const INT_MAX := 0x7fff_ffff

  /** `snprintf` writes into a 32-byte buffer, terminator included. */
  const FORMAT_CAPACITY := 31

  // ----- Decimal formatting ------------------------------------------------------------

  function Digits(n: nat): (s: string)
    ensures |s| >= 1
  {
    if n < 10 then [('0' as int + n) as char] else Digits(n / 10) + [('0' as int + n % 10) as char]
  }

  function Zeros(k: nat): string {
    seq(k, _ => '0')
  }

  function Pad(width: int, digits: string): string {
    if |digits| < width then Zeros(width - |digits|) + digits else digits
  }

  /** `snprintf(buf, 32, "%0*d", width, index)`: zero padding after the sign, truncation at 31. */
  function FormatIndex(width: nat, index: int): string {
    var text := if index >= 0 then Pad(width, Digits(index)) else "-" + Pad(width - 1, Digits(-index));
    if |text| <= FORMAT_CAPACITY then text else text[..FORMAT_CAPACITY]
  }

  /** The number a digit string denotes; the inverse of formatting. */
  function Value(s: string): int {
    if s == "" then 0 else 10 * Value(s[..|s| - 1]) + (s[|s| - 1] as int - '0' as int)
  }

  lemma {:induction false} ValueOfDigits(n: nat)
    ensures Value(Digits(n)) == n
  {
    var s := Digits(n);
    if n < 10 {
      assert s[..|s| - 1] == "";
    } else {
      ValueOfDigits(n / 10);
      assert s[..|s| - 1] == Digits(n / 10);
    }
  }

  lemma {:induction false} ValueIgnoresZeros(k: nat, s: string)
    ensures Value(Zeros(k) + s) == Value(s)
  {
    if s == "" {
      assert Zeros(k) + s == Zeros(k);
      if k > 0 {
        assert Zeros(k)[..k - 1] == Zeros(k - 1) + s;
        ValueIgnoresZeros(k - 1, s);
      }
    } else {
      var t := Zeros(k) + s;
      assert t[..|t| - 1] == Zeros(k) + s[..|s| - 1];
      ValueIgnoresZeros(k, s[..|s| - 1]);
    }
  }

  function Pow10(k: nat): (p: nat)
    ensures p >= 1
  {
    if k == 0 then 1 else 10 * Pow10(k - 1)
  }

  lemma {:induction false} DigitsLength(n: nat, k: nat)
    requires k >= 1 && n < Pow10(k)
    ensures |Digits(n)| <= k
  {
    assert Pow10(1) == 10;
    if n >= 10 {
      DigitsLength(n / 10, k - 1);
    }
  }

  /** A validated width never truncates, so the formatted index still denotes the index. */
  lemma FormatRoundTrip(width: nat, index: nat)
    requires 1 <= width <= 16 && index <= INT_MAX
    ensures Value(FormatIndex(width, index)) == index
  {
    assert Pow10(10) == 10_000_000_000 by {
      assert Pow10(2) == 100 && Pow10(4) == 10_000;
      assert Pow10(6) == 1_000_000 && Pow10(8) == 100_000_000;
    }
    DigitsLength(index, 10);
    ValueOfDigits(index);
    var d := Digits(index);
    if |d| < width {
      ValueIgnoresZeros(width - |d|, d);
    }
  }

  // ----- Substitution ------------------------------------------------------------------

  predicate MatchesAt(s: string, pat: string, k: nat) {
    k + |pat| <= |s| && s[k..k + |pat|] == pat
  }

  /** The text still names the placeholder. */
  ghost predicate Contains(s: string, pat: string) {
    exists k: nat :: MatchesAt(s, pat, k)
  }

  /** Left-to-right replacement that never rescans what it has written. */
  function ReplaceAll(s: string, from: string, to: string): string
    requires from != ""
    decreases |s|
  {
    if |s| < |from| then s
    else if MatchesAt(s, from, 0) then to + ReplaceAll(s[|from|..], from, to)
    else [s[0]] + ReplaceAll(s[1..], from, to)
  }

  lemma MatchInSuffix(s: string, pat: string, start: nat, j: nat)
    requires start <= |s| && pat != ""
    ensures MatchesAt(s[start..], pat, j) <==> MatchesAt(s, pat, start + j)
  {
    if start + j + |pat| <= |s| {
      assert s[start..][j..j + |pat|] == s[start + j..start + j + |pat|];
    }
  }

  lemma ReplaceShort(s: string, from: string, to: string)
    requires |s| < |from|
    ensures ReplaceAll(s, from, to) == s
  {
  }

  lemma ReplaceUnmatchedHead(s: string, from: string, to: string)
    requires from != "" && |s| >= |from| && !MatchesAt(s, from, 0)
    ensures ReplaceAll(s, from, to) == [s[0]] + ReplaceAll(s[1..], from, to)
  {
  }

  lemma {:induction false} SkipUnmatched(s: string, from: string, to: string, k: nat)
    requires from != "" && k <= |s|
    requires forall j: nat :: j < k ==> !MatchesAt(s, from, j)
    ensures ReplaceAll(s, from, to) == s[..k] + ReplaceAll(s[k..], from, to)
    decreases k
  {
    hide MatchesAt, ReplaceAll;
    if k == 0 {
      assert s[0..] == s;
      assert s[..0] + ReplaceAll(s, from, to) == ReplaceAll(s, from, to);
    } else if |s| < |from| {
      ReplaceShort(s, from, to);
      ReplaceShort(s[k..], from, to);
      assert s[..k] + s[k..] == s;
    } else {
      forall j: nat | j < k - 1
        ensures !MatchesAt(s[1..], from, j)
      {
        MatchInSuffix(s, from, 1, j);
      }
      ReplaceUnmatchedHead(s, from, to);
      SkipUnmatched(s[1..], from, to, k - 1);
      assert s[1..][k - 1..] == s[k..];
      assert [s[0]] + s[1..][..k - 1] == s[..k];
    }
  }

  lemma UnmatchedIsUnchanged(s: string, from: string, to: string)
    requires from != ""
    requires forall j: nat :: !MatchesAt(s, from, j)
    ensures ReplaceAll(s, from, to) == s
  {
    SkipUnmatched(s, from, to, |s|);
    assert s[|s|..] == "" && s[..|s|] == s;
  }

  /** `std::string::find(pat, start)`, with -1 for npos. */
  method Find(s: string, pat: string, start: nat) returns (pos: int)
    requires pat != "" && start <= |s|
    ensures pos == -1 || (start <= pos && MatchesAt(s, pat, pos))
    ensures forall j: nat :: start <= j && (pos == -1 || j < pos) ==> !MatchesAt(s, pat, j)
  {
    var k := start;
    while k + |pat| <= |s|
      invariant start <= k <= |s|
      invariant forall j: nat :: start <= j < k ==> !MatchesAt(s, pat, j)
    {
      if s[k..k + |pat|] == pat {
        return k;
      }
      k := k + 1;
    }
    return -1;
  }

  lemma ReplaceFirstMatch(s: string, from: string, to: string, k: nat)
    requires from != "" && MatchesAt(s, from, k)
    requires forall j: nat :: j < k ==> !MatchesAt(s, from, j)
    ensures ReplaceAll(s, from, to) == s[..k] + (to + ReplaceAll(s[k + |from|..], from, to))
  {
    SkipUnmatched(s, from, to, k);
    MatchInSuffix(s, from, k, 0);
    assert s[k..][|from|..] == s[k + |from|..];
  }

  /** One turn of the loop: everything before `k` is final, the match at `k` becomes `to`. */
  lemma ReplaceStep(out: string, from: string, to: string, pos: nat, k: nat)
    requires from != "" && pos <= k && MatchesAt(out, from, k)
    requires forall j: nat :: pos <= j < k ==> !MatchesAt(out, from, j)
    ensures out[..pos] + ReplaceAll(out[pos..], from, to)
         == out[..k] + to + ReplaceAll(out[k + |from|..], from, to)
  {
    hide ReplaceAll;
    var rest := out[pos..];
    forall j: nat
      ensures MatchesAt(rest, from, j) <==> MatchesAt(out, from, pos + j)
    {
      MatchInSuffix(out, from, pos, j);
    }
    ReplaceFirstMatch(rest, from, to, k - pos);
    var tail := ReplaceAll(out[k + |from|..], from, to);
    assert rest[k - pos + |from|..] == out[k + |from|..];
    Regroup(out, pos, k, to, tail);
  }

  lemma Regroup(out: string, pos: nat, k: nat, to: string, tail: string)
    requires pos <= k <= |out|
    ensures out[..pos] + (out[pos..][..k - pos] + (to + tail)) == out[..k] + to + tail
  {
  }

  lemma NoMatchLeft(out: string, from: string, to: string, pos: nat)
    requires from != "" && pos <= |out|
    requires forall j: nat :: pos <= j ==> !MatchesAt(out, from, j)
    ensures out[..pos] + ReplaceAll(out[pos..], from, to) == out
  {
    forall j: nat
      ensures !MatchesAt(out[pos..], from, j)
    {
      MatchInSuffix(out, from, pos, j);
    }
    UnmatchedIsUnchanged(out[pos..], from, to);
  }

  /** The lambda of `derivedEmail`: find from a moving position, replace in place, step past it. */
  method ReplaceInPlace(text: string, from: string, to: string) returns (out: string)
    requires from != ""
    ensures out == ReplaceAll(text, from, to)
  {
    out := text;
    var pos := 0;
    assert text[0..] == text;
    while true
      invariant 0 <= pos <= |out|
      invariant out[..pos] + ReplaceAll(out[pos..], from, to) == ReplaceAll(text, from, to)
      decreases |out| - pos
    {
      var k := Find(out, from, pos);
      if k == -1 {
        NoMatchLeft(out, from, to, pos);
        break;
      }
      ReplaceStep(out, from, to, pos, k);
      var next := out[..k] + to + out[k + |from|..];
      assert next[k + |to|..] == out[k + |from|..];
      assert next[..k + |to|] == out[..k] + to;
      out, pos := next, k + |to|;
    }
  }

  // ----- Split and join ----------------------------------------------------------------

  function Split(s: string, from: string): (pieces: seq<string>)
    requires from != ""
    ensures |pieces| >= 1
    decreases |s|
  {
    if |s| < |from| then [s]
    else if MatchesAt(s, from, 0) then [""] + Split(s[|from|..], from)
    else var rest := Split(s[1..], from); [[s[0]] + rest[0]] + rest[1..]
  }

  function Join(pieces: seq<string>, glue: string): string
    requires |pieces| >= 1
  {
    if |pieces| == 1 then pieces[0] else pieces[0] + glue + Join(pieces[1..], glue)
  }

  /** Pieces in front: an empty first piece is a glue, a longer first piece a longer text. */
  lemma JoinEmptyFirst(pieces: seq<string>, glue: string)
    requires |pieces| >= 1
    ensures Join([""] + pieces, glue) == glue + Join(pieces, glue)
  {
    assert ([""] + pieces)[1..] == pieces;
    assert "" + glue == glue;
  }

  lemma JoinLongerFirst(c: char, pieces: seq<string>, glue: string)
    requires |pieces| >= 1
    ensures Join([[c] + pieces[0]] + pieces[1..], glue) == [c] + Join(pieces, glue)
  {
    var longer := [[c] + pieces[0]] + pieces[1..];
    assert longer[1..] == pieces[1..];
    if |pieces| > 1 {
      assert [c] + pieces[0] + glue + Join(pieces[1..], glue) == [c] + (pieces[0] + glue + Join(pieces[1..], glue));
    }
  }

  lemma {:induction false} ReplaceIsJoinOfSplit(s: string, from: string, to: string)
    requires from != ""
    ensures ReplaceAll(s, from, to) == Join(Split(s, from), to)
    decreases |s|
  {
    hide MatchesAt;
    if |s| < |from| {
    } else if MatchesAt(s, from, 0) {
      hide Join;
      ReplaceIsJoinOfSplit(s[|from|..], from, to);
      JoinEmptyFirst(Split(s[|from|..], from), to);
    } else {
      hide Join;
      ReplaceIsJoinOfSplit(s[1..], from, to);
      JoinLongerFirst(s[0], Split(s[1..], from), to);
    }
  }

  lemma {:induction false} SplitCountsMatches(s: string, from: string)
    requires from != ""
    ensures |Split(s, from)| >= 2 <==> Contains(s, from)
    decreases |s|
  {
    if |s| < |from| {
    } else if MatchesAt(s, from, 0) {
    } else {
      SplitCountsMatches(s[1..], from);
      if Contains(s, from) {
        var k: nat :| MatchesAt(s, from, k);
        MatchInSuffix(s, from, 1, k - 1);
      }
      if Contains(s[1..], from) {
        var k: nat :| MatchesAt(s[1..], from, k);
        MatchInSuffix(s, from, 1, k);
      }
    }
  }

  lemma {:induction false} JoinLength(pieces: seq<string>, a: string, b: string)
    requires |pieces| >= 1
    ensures |Join(pieces, a)| - |Join(pieces, b)| == (|pieces| - 1) * (|a| - |b|)
  {
    if |pieces| > 1 {
      JoinLength(pieces[1..], a, b);
    }
  }

  /** Gluing the same two or more pieces with two texts gives one string only for equal texts. */
  lemma JoinInjective(pieces: seq<string>, a: string, b: string)
    requires |pieces| >= 2
    requires Join(pieces, a) == Join(pieces, b)
    ensures a == b
  {
    JoinLength(pieces, a, b);
    var gap, k := |a| - |b|, |pieces| - 1;
    assert k * gap == 0 && k >= 1;
    assert gap >= 1 ==> k * gap >= gap;
    assert gap <= -1 ==> k * gap <= gap;
    var p := pieces[0];
    assert Join(pieces, a)[|p|..|p| + |a|] == a;
    assert Join(pieces, b)[|p|..|p| + |b|] == b;
  }

  // ----- The derived account -----------------------------------------------------------

  function AtSign(email: string): (k: nat)
    ensures k <= |email|
    ensures k < |email| ==> email[k] == '@'
  {
    if email == "" || email[0] == '@' then 0 else 1 + AtSign(email[1..])
  }

  function LocalPart(email: string): string {
    email[..AtSign(email)]
  }

  function DomainPart(email: string): string {
    if AtSign(email) == |email| then "" else email[AtSign(email) + 1..]
  }

  /** The pattern once `{local}` and `{domain}` have been filled in. */
  function Personalised(email: string, pattern: string): string {
    ReplaceAll(ReplaceAll(pattern, "{local}", LocalPart(email)), "{domain}", DomainPart(email))
  }

  function Derived(email: string, pattern: string, width: nat, index: int): string {
    ReplaceAll(Personalised(email, pattern), "{index}", FormatIndex(width, index))
  }

  method DerivedEmail(email: string, pattern: string, width: nat, index: int) returns (out: string)
    ensures out == Derived(email, pattern, width, index)
  {
    var at := Find(email, "@", 0);
    AtSignIsFind(email, at);
    var local := if at == -1 then email else email[..at];
    var domain := if at == -1 then "" else email[at + 1..];
    assert local == LocalPart(email) && domain == DomainPart(email);
    out := ReplaceInPlace(pattern, "{local}", local);
    out := ReplaceInPlace(out, "{domain}", domain);
    out := ReplaceInPlace(out, "{index}", FormatIndex(width, index));
  }

  lemma {:induction false} AtSignIsFind(email: string, at: int)
    requires at == -1 || (0 <= at && MatchesAt(email, "@", at))
    requires forall j: nat :: at == -1 || j < at ==> !MatchesAt(email, "@", j)
    ensures AtSign(email) == if at == -1 then |email| else at
  {
    AtSignIsFirst(email);
    var k := AtSign(email);
    if k < |email| {
      assert MatchesAt(email, "@", k) by {
        assert email[k..k + 1] == "@";
      }
    }
    if at >= 0 {
      assert email[at] == email[at..at + 1][0];
    }
  }

  lemma {:induction false} AtSignIsFirst(email: string)
    ensures forall j :: 0 <= j < AtSign(email) ==> email[j] != '@'
  {
    if email != "" && email[0] != '@' {
      AtSignIsFirst(email[1..]);
      forall j | 0 <= j < AtSign(email)
        ensures email[j] != '@'
      {
        if j > 0 {
          assert email[j] == email[1..][j - 1];
        }
      }
    }
  }

  /** Two clients of the fleet are two accounts exactly when the personalised pattern still
      names `{index}`: whether the digits overflow the pad width, and however often it occurs. */
  lemma AccountsDistinct(email: string, pattern: string, width: nat, i: nat, j: nat)
    requires 1 <= width <= 16
    requires i <= INT_MAX && j <= INT_MAX && i != j
    ensures Derived(email, pattern, width, i) != Derived(email, pattern, width, j)
       <==> Contains(Personalised(email, pattern), "{index}")
  {
    var text := Personalised(email, pattern);
    var a, b := FormatIndex(width, i), FormatIndex(width, j);
    ReplaceIsJoinOfSplit(text, "{index}", a);
    ReplaceIsJoinOfSplit(text, "{index}", b);
    SplitCountsMatches(text, "{index}");
    FormatRoundTrip(width, i);
    FormatRoundTrip(width, j);
    var pieces := Split(text, "{index}");
    if |pieces| >= 2 && Join(pieces, a) == Join(pieces, b) {
      JoinInjective(pieces, a, b);
    }
  }

  // ----- What the account looks like ---------------------------------------------------

  /** The padded index is at least as wide as asked, and no wider than its digits need. */
  lemma FormatPads(width: nat, index: nat)
    requires 1 <= width <= 16 && index <= INT_MAX
    ensures var text := FormatIndex(width, index);
            && |text| >= width && (|text| > width ==> text == Digits(index))
            && (forall k :: 0 <= k < |text| - |Digits(index)| ==> text[k] == '0')
            && |Digits(index)| <= |text| && text[|text| - |Digits(index)|..] == Digits(index)
  {
    DigitsShort(index);
    ZerosAre(if |Digits(index)| < width then width - |Digits(index)| else 0);
  }

  lemma DigitsShort(index: nat)
    requires index <= INT_MAX
    ensures |Digits(index)| <= 10
  {
    DigitsLength(index, 10);
  }

  lemma {:induction false} ZerosAre(n: nat)
    ensures |Zeros(n)| == n && forall k :: 0 <= k < n ==> Zeros(n)[k] == '0'
  {
    if n > 0 {
      ZerosAre(n - 1);
    }
  }

  /** What every placeholder starts with. */
  const BRACE: char := 123 as char

  predicate Plain(s: string) {
    forall k :: 0 <= k < |s| ==> s[k] != BRACE
  }

  /** A placeholder: one brace, at its front. */
  predicate Placeholder(s: string) {
    |s| >= 2 && s[0] == BRACE && Plain(s[1..])
  }

  lemma BraceStartsMatch(s: string, from: string, j: nat)
    requires Placeholder(from) && j < |s| && MatchesAt(s, from, j)
    ensures s[j] == BRACE && j + 1 < |s| && s[j + 1] == from[1]
  {
    assert s[j..j + |from|] == from;
    assert s[j..j + |from|][0] == s[j] && s[j..j + |from|][1] == s[j + 1];
  }

  /** Text without a brace is passed over. */
  lemma PassPlain(x: string, y: string, from: string, to: string)
    requires Placeholder(from) && Plain(x)
    ensures ReplaceAll(x + y, from, to) == x + ReplaceAll(y, from, to)
  {
    hide ReplaceAll, MatchesAt;
    var s := x + y;
    forall j: nat | j < |x|
      ensures !MatchesAt(s, from, j)
    {
      assert s[j] == x[j];
      if MatchesAt(s, from, j) {
        BraceStartsMatch(s, from, j);
      }
    }
    SkipUnmatched(s, from, to, |x|);
    assert s[..|x|] == x && s[|x|..] == y;
  }

  /** So is another placeholder. */
  lemma PassOther(other: string, y: string, from: string, to: string)
    requires Placeholder(from) && Placeholder(other) && other[1] != from[1]
    ensures ReplaceAll(other + y, from, to) == other + ReplaceAll(y, from, to)
  {
    hide ReplaceAll, MatchesAt;
    var s := other + y;
    forall j: nat | j < |other|
      ensures !MatchesAt(s, from, j)
    {
      assert s[j] == other[j] && s[1] == other[1];
      assert j > 0 ==> other[j] == other[1..][j - 1];
      if MatchesAt(s, from, j) {
        BraceStartsMatch(s, from, j);
      }
    }
    SkipUnmatched(s, from, to, |other|);
    assert s[..|other|] == other && s[|other|..] == y;
  }

  lemma HitsPlaceholder(y: string, from: string, to: string)
    requires Placeholder(from)
    ensures ReplaceAll(from + y, from, to) == to + ReplaceAll(y, from, to)
  {
    var s := from + y;
    assert s[0..|from|] == from && s[|from|..] == y;
  }

  lemma PlainStays(x: string, from: string, to: string)
    requires Placeholder(from) && Plain(x)
    ensures ReplaceAll(x, from, to) == x
  {
    hide ReplaceAll;
    PassPlain(x, "", from, to);
    ReplaceShort("", from, to);
    assert x + "" == x;
  }

  const LOCAL := "{local}"
  const DOMAIN := "{domain}"
  const INDEX := "{index}"

  lemma ThreePlaceholders()
    ensures Placeholder(LOCAL) && Placeholder(DOMAIN) && Placeholder(INDEX)
    ensures LOCAL[1] == 'l' && DOMAIN[1] == 'd' && INDEX[1] == 'i'
  {
  }

  /** a {x} b {y} c {z} d with the first placeholder filled in. */
  lemma FillsOne(a: string, x: string, rest: string, to: string)
    requires Placeholder(x) && Plain(a)
    ensures ReplaceAll(a + (x + rest), x, to) == a + (to + ReplaceAll(rest, x, to))
  {
    hide ReplaceAll;
    PassPlain(a, x + rest, x, to);
    HitsPlaceholder(rest, x, to);
  }

  /** Text, another placeholder and the rest. */
  lemma PassesOne(a: string, y: string, rest: string, x: string, to: string)
    requires Placeholder(x) && Placeholder(y) && x[1] != y[1] && Plain(a)
    ensures ReplaceAll(a + (y + rest), x, to) == a + (y + ReplaceAll(rest, x, to))
  {
    hide ReplaceAll;
    PassPlain(a, y + rest, x, to);
    PassOther(y, rest, x, to);
  }

  /** Once the address is in place, only the index is left. */
  lemma PersonalisedIs(email: string, a: string, b: string, c: string, d: string)
    requires Plain(a) && Plain(b) && Plain(c) && Plain(d) && Plain(LocalPart(email)) && Plain(DomainPart(email))
    ensures Personalised(email, a + (LOCAL + (b + (INDEX + (c + (DOMAIN + d))))))
         == a + LocalPart(email) + (b + (INDEX + (c + (DomainPart(email) + d))))
  {
    hide ReplaceAll, LocalPart, DomainPart, Plain, Placeholder;
    ThreePlaceholders();
    var lo, dom, tail := LocalPart(email), DomainPart(email), c + (DOMAIN + d);
    FillsOne(a, LOCAL, b + (INDEX + tail), lo);
    PassesOne(b, INDEX, tail, LOCAL, lo);
    PassesOne(c, DOMAIN, d, LOCAL, lo);
    PlainStays(d, LOCAL, lo);
    assert a + (lo + (b + (INDEX + tail))) == (a + lo) + (b + (INDEX + tail));
    BothPlain(a, lo);
    PassPlain(a + lo, b + (INDEX + tail), DOMAIN, dom);
    PassesOne(b, INDEX, tail, DOMAIN, dom);
    FillsOne(c, DOMAIN, d, dom);
    PlainStays(d, DOMAIN, dom);
  }

  lemma BothPlain(a: string, b: string)
    requires Plain(a) && Plain(b)
    ensures Plain(a + b)
  {
  }

  /** The account of a client, for a pattern that names the three placeholders in the order of the
      default one: the part of the address before the @ stands for `{local}`, the part after it
      for `{domain}`, and the padded index for `{index}`. */
  lemma DerivedIs(email: string, a: string, b: string, c: string, d: string, width: nat, index: int)
    requires Plain(a) && Plain(b) && Plain(c) && Plain(d) && Plain(LocalPart(email)) && Plain(DomainPart(email))
    ensures Derived(email, a + (LOCAL + (b + (INDEX + (c + (DOMAIN + d))))), width, index)
         == a + LocalPart(email) + (b + (FormatIndex(width, index) + (c + (DomainPart(email) + d))))
  {
    hide ReplaceAll, LocalPart, DomainPart, Plain, Placeholder, Personalised, FormatIndex;
    ThreePlaceholders();
    PersonalisedIs(email, a, b, c, d);
    var lo, dom, text := LocalPart(email), DomainPart(email), FormatIndex(width, index);
    BothPlain(a, lo);
    PassPlain(a + lo, b + (INDEX + (c + (dom + d))), INDEX, text);
    FillsOne(b, INDEX, c + (dom + d), text);
    BothPlain(dom, d);
    BothPlain(c, dom + d);
    PlainStays(c + (dom + d), INDEX, text);
  }

  const AT := "@"

  predicate Unparted(s: string) {
    forall k :: 0 <= k < |s| ==> s[k] != '@'
  }

  /** The two parts of an address: what is before its first @ and what is after it; without one
      all of it is local. */
  lemma AddressParts(local: string, domain: string)
    requires Unparted(local)
    ensures LocalPart(local + AT + domain) == local && DomainPart(local + AT + domain) == domain
    ensures LocalPart(local) == local && DomainPart(local) == ""
  {
    var email := local + AT + domain;
    AtSignIsFirst(email);
    AtSignIsFirst(local);
    assert email[|local|] == '@';
    assert forall j :: 0 <= j < |local| ==> email[j] == local[j];
    AtSignReaches(email, |local|);
    assert email[..|local|] == local && email[|local| + 1..] == domain;
    assert local[..|local|] == local;
  }

  lemma {:induction false} AtSignReaches(email: string, k: nat)
    requires k < |email| && email[k] == '@'
    ensures AtSign(email) <= k
    decreases k
  {
    if email[0] != '@' {
      AtSignReaches(email[1..], k - 1);
    }
  }
}
