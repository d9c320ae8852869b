/**
The search for a fresh tenant slug: try the account's own slug, then `stem-1`, `stem-2`, ... until the
table, which compares slugs without regard to case, has no such row.
 */
module SlugSearch {
  import opened Strings

  const MAX_SLUG := 64

  function Take(s: string, n: nat): string {
    if |s| <= n then s else s[..n]
  }

  function Decimal(n: nat): (r: string)
    ensures r != "" && forall i :: 0 <= i < |r| ==> '0' <= r[i] <= '9'
  {
    var digit := [('0' as int + n % 10) as char];
    if n < 10 then digit else Decimal(n / 10) + digit
  }

  function Value(s: string): nat {
    if s == "" then 0
    else Value(s[..|s| - 1]) * 10 + (if '0' <= s[|s| - 1] <= '9' then s[|s| - 1] as int - '0' as int else 0)
  }

  lemma {:induction false} ValueOfDecimal(n: nat)
    ensures Value(Decimal(n)) == n
  {
    var digit := [('0' as int + n % 10) as char];
    if n >= 10 {
      ValueOfDecimal(n / 10);
      assert Decimal(n) == Decimal(n / 10) + digit;
      assert Decimal(n)[..|Decimal(n)| - 1] == Decimal(n / 10);
    } else {
      assert digit[..0] == "";
    }
  }

  function Base(accountSlug: string): string {
    var base := Take(Lower(Strip(if accountSlug == "" then "app" else accountSlug)), MAX_SLUG);
    if base == "" then "app" else base
  }

  /** The n-th candidate; the 0-th is the base itself. */
  function Candidate(base: string, n: nat): string {
    if n == 0 then base
    else
      var suffix := "-" + Decimal(n);
      Take(base, if MAX_SLUG - |suffix| > 1 then MAX_SLUG - |suffix| else 1) + suffix
  }

  /** `Tenant.objects.filter(slug__iexact=candidate).exists()` */
  predicate Taken(table: set<string>, candidate: string) {
    exists slug :: slug in table && Lower(slug) == Lower(candidate)
  }

  /** The number after the last dash of a candidate gives its counter back. */
  function CounterOf(s: string): nat {
    if s == "" || s[|s| - 1] == '-' then 0
    else CounterOf(s[..|s| - 1]) * 10 + (if '0' <= s[|s| - 1] <= '9' then s[|s| - 1] as int - '0' as int else 0)
  }

  lemma {:induction false} CounterAfterDash(stem: string, digits: string)
    requires forall i :: 0 <= i < |digits| ==> '0' <= digits[i] <= '9'
    ensures CounterOf(stem + "-" + digits) == Value(digits)
  {
    var s := stem + "-" + digits;
    if digits == "" {
      assert s[|s| - 1] == '-';
    } else {
      var init := digits[..|digits| - 1];
      CounterAfterDash(stem, init);
      assert s[..|s| - 1] == stem + "-" + init;
      assert s[|s| - 1] == digits[|digits| - 1];
    }
  }

  /** Counters are digits, so lower-casing does not disturb them. */
  lemma {:induction false} CounterIgnoresCase(s: string)
    ensures CounterOf(Lower(s)) == CounterOf(s)
  {
    if s != "" {
      CounterIgnoresCase(s[..|s| - 1]);
      assert Lower(s)[..|s| - 1] == Lower(s[..|s| - 1]);
    }
  }

  /** Numbered candidates with different counters differ, even without regard to case, and however
      much of the base is cut off to make room for the number. */
  lemma CandidatesDiffer(base: string, m: nat, n: nat)
    requires 0 < m && 0 < n && Lower(Candidate(base, m)) == Lower(Candidate(base, n))
    ensures m == n
  {
    CandidateCounter(base, m);
    CandidateCounter(base, n);
    CounterIgnoresCase(Candidate(base, m));
    CounterIgnoresCase(Candidate(base, n));
  }

  lemma CandidateCounter(base: string, n: nat)
    requires 0 < n
    ensures CounterOf(Candidate(base, n)) == n
  {
    var suffix := "-" + Decimal(n);
    var stem := Take(base, if MAX_SLUG - |suffix| > 1 then MAX_SLUG - |suffix| else 1);
    CounterAfterDash(stem, Decimal(n));
    ValueOfDecimal(n);
    assert stem + suffix == stem + "-" + Decimal(n);
  }

  /** Pigeonhole: pairwise different members of a set are at most as many as the set has. */
  lemma {:induction false} Pigeonhole(keys: seq<string>, holes: set<string>)
    requires forall i, j :: 0 <= i < j < |keys| ==> keys[i] != keys[j]
    requires forall i :: 0 <= i < |keys| ==> keys[i] in holes
    ensures |keys| <= |holes|
  {
    if keys != [] {
      Pigeonhole(keys[1..], holes - {keys[0]});
    }
  }

  ghost function LowerAll(table: set<string>): set<string> {
    set s | s in table :: Lower(s)
  }

  lemma {:induction false} LowerAllIsSmall(table: set<string>)
    ensures |LowerAll(table)| <= |table|
    decreases table
  {
    if table != {} {
      var s :| s in table;
      LowerAllIsSmall(table - {s});
      assert LowerAll(table) <= LowerAll(table - {s}) + {Lower(s)};
      SubsetSize(LowerAll(table), LowerAll(table - {s}) + {Lower(s)});
    }
  }

  lemma {:induction false} SubsetSize(a: set<string>, b: set<string>)
    requires a <= b
    ensures |a| <= |b|
    decreases a
  {
    if a != {} {
      var x :| x in a;
      SubsetSize(a - {x}, b - {x});
    }
  }

  /** The first n numbered candidates, as the case-blind table sees them. */
  ghost function Keys(base: string, n: nat): (keys: seq<string>)
    ensures |keys| == n
  {
    if n == 0 then [] else Keys(base, n - 1) + [Lower(Candidate(base, n))]
  }

  lemma {:induction false} KeyAt(base: string, n: nat, i: nat)
    requires i < n
    ensures Keys(base, n)[i] == Lower(Candidate(base, i + 1))
  {
    if i < n - 1 {
      KeyAt(base, n - 1, i);
    }
  }

  /** The first n candidates, starting with the base itself, are all taken. */
  predicate AllTaken(table: set<string>, base: string, n: nat) {
    forall m :: 0 <= m < n ==> Taken(table, Candidate(base, m))
  }

  /** n taken numbered candidates need n rows in the table. */
  lemma TakenRunOut(table: set<string>, base: string, n: nat)
    requires AllTaken(table, base, n) && Taken(table, Candidate(base, n))
    ensures n <= |table| && AllTaken(table, base, n + 1)
  {
    var keys := Keys(base, n);
    forall i, j | 0 <= i < j < n
      ensures keys[i] != keys[j]
    {
      KeysDiffer(base, n, i, j);
    }
    forall i | 0 <= i < n
      ensures keys[i] in LowerAll(table)
    {
      KeyAt(base, n, i);
      TakenIsLowered(table, Candidate(base, i + 1));
    }
    Pigeonhole(keys, LowerAll(table));
    LowerAllIsSmall(table);
  }

  lemma KeysDiffer(base: string, n: nat, i: nat, j: nat)
    requires i < j < n
    ensures Keys(base, n)[i] != Keys(base, n)[j]
  {
    KeyAt(base, n, i);
    KeyAt(base, n, j);
    if Keys(base, n)[i] == Keys(base, n)[j] {
      CandidatesDiffer(base, i + 1, j + 1);
    }
  }

  lemma TakenIsLowered(table: set<string>, candidate: string)
    requires Taken(table, candidate)
    ensures Lower(candidate) in LowerAll(table)
  {
  }

  lemma {:induction false} DecimalGrows(m: nat, n: nat)
    requires m <= n
    ensures |Decimal(m)| <= |Decimal(n)|
    decreases n
  {
    if m >= 10 {
      DecimalGrows(m / 10, n / 10);
    }
  }

  lemma CandidateFits(base: string, n: nat, most: nat)
    requires |base| <= MAX_SLUG && n <= most
    ensures |Decimal(most)| <= MAX_SLUG - 2 ==> |Candidate(base, n)| <= MAX_SLUG
  {
    DecimalGrows(n, most);
  }

  /** The slug the search starts from: the account's, stripped, in lower case and cut to 64 characters; "app" if that
      leaves nothing. */
  lemma BaseIs(accountSlug: string)
    ensures var plain := Lower(Strip(accountSlug));
            Base(accountSlug) == if plain == "" then "app" else if |plain| <= 64 then plain else plain[..64]
  {
    assert Lower(Strip("app")) == "app" by {
      assert |Lower("app")| == 3;
    }
    assert Strip("") == "";
  }

  /** A numbered candidate is as much of the base as leaves room for the number, a dash, and the number. */
  lemma CandidateReads(base: string, n: nat)
    requires n > 0
    ensures Candidate(base, 0) == base
    ensures exists stem :: stem <= base && Candidate(base, n) == stem + "-" + Decimal(n)
                           && (stem == base || |stem| == 1 || |Candidate(base, n)| == 64)
  {
    var suffix := "-" + Decimal(n);
    var stem := Take(base, if MAX_SLUG - |suffix| > 1 then MAX_SLUG - |suffix| else 1);
    assert stem + suffix == stem + "-" + Decimal(n);
    assert stem <= base;
  }

  method Numbered(base: string, n: nat) returns (candidate: string)
    requires n > 0
    ensures candidate == Candidate(base, n)
  {
    var suffix := "-" + Decimal(n);
    var stem := Take(base, if MAX_SLUG - |suffix| > 1 then MAX_SLUG - |suffix| else 1);
    candidate := stem + suffix;
  }

  /** The search: terminates on every finite table with the first free candidate, which fits the column
      unless the number of rows has itself more than 62 digits. */
  method UniqueTenantSlug(accountSlug: string, table: set<string>) returns (candidate: string, ghost tries: nat)
    ensures !Taken(table, candidate)
    ensures candidate == Candidate(Base(accountSlug), tries)
    ensures AllTaken(table, Base(accountSlug), tries)
    ensures tries <= |table| + 1
    ensures |Decimal(|table| + 1)| <= MAX_SLUG - 2 ==> |candidate| <= MAX_SLUG
  {
    var base := Take(Lower(Strip(if accountSlug == "" then "app" else accountSlug)), MAX_SLUG);
    if base == "" {
      base := "app";
    }
    candidate := base;
    var n := 0;
    while Taken(table, candidate)
      invariant candidate == Candidate(base, n)
      invariant AllTaken(table, base, n)
      invariant n <= |table| + 1
      decreases |table| + 1 - n
    {
      TakenRunOut(table, base, n);
      n := n + 1;
      candidate := Numbered(base, n);
    }
    tries := n;
    CandidateFits(base, n, |table| + 1);
  }
}
