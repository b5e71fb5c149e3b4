/**
 `generateUniqueUsername`: the first free name among base, base1, base2, and so on.
 */
module Usernames {
  import opened Wrappers

  // ---------------------------------------------------------------- decimal numbers

  function Digit(d: nat): char
    requires d < 10
  {
    ('0' as int + d) as char
  }

  function Decimal(n: nat): (s: string)
    ensures |s| > 0
  {
    if n < 10 then [Digit(n)] else Decimal(n / 10) + [Digit(n % 10)]
  }

  lemma {:induction false} DecimalInjective(a: nat, b: nat)
    requires Decimal(a) == Decimal(b)
    ensures a == b
    decreases a
  {
    var s, t := Decimal(a), Decimal(b);
    assert s[|s| - 1] == t[|t| - 1];
    if a >= 10 && b >= 10 {
      assert s[..|s| - 1] == Decimal(a / 10) && t[..|t| - 1] == Decimal(b / 10);
      DecimalInjective(a / 10, b / 10);
    }
  }

  // ---------------------------------------------------------------- candidates

  function Candidate(base: string, counter: nat): string {
    if counter == 0 then base else base + Decimal(counter)
  }

  lemma CandidatesDiffer(base: string, i: nat, j: nat)
    requires Candidate(base, i) == Candidate(base, j)
    ensures i == j
  {
    if i > 0 && j > 0 {
      assert Candidate(base, i)[|base|..] == Decimal(i) && Candidate(base, j)[|base|..] == Decimal(j);
      DecimalInjective(i, j);
    }
  }

  function FirstCandidates(base: string, n: nat): (s: set<string>) {
    set i | 0 <= i < n :: Candidate(base, i)
  }

  /** No two candidates are alike, so there are as many names as numbers. */
  lemma {:induction false} CandidatesCount(base: string, n: nat)
    ensures |FirstCandidates(base, n)| == n
  {
    if n > 0 {
      CandidatesCount(base, n - 1);
      var last := Candidate(base, n - 1);
      if last in FirstCandidates(base, n - 1) {
        var i :| 0 <= i < n - 1 && Candidate(base, i) == last;
        CandidatesDiffer(base, i, n - 1);
      }
      assert FirstCandidates(base, n) == FirstCandidates(base, n - 1) + {last};
    }
  }

  /** A finite table cannot hold every candidate. */
  lemma TakenRunIsBounded(base: string, n: nat, taken: set<string>)
    requires forall i :: 0 <= i < n ==> Candidate(base, i) in taken
    ensures n <= |taken|
  {
    CandidatesCount(base, n);
    SubsetIsNoLarger(FirstCandidates(base, n), taken);
  }

  // ---------------------------------------------------------------- the procedure

  predicate NameChar(c: char) { 'a' <= c <= 'z' || '0' <= c <= '9' || c == '_' }

  function Normalize(s: string): (r: string)
    ensures forall i :: 0 <= i < |r| ==> NameChar(r[i])
  {
    if s == "" then ""
    else
      var c := if 'A' <= s[0] <= 'Z' then (s[0] as int + 32) as char else s[0];
      (if NameChar(c) then [c] else "") + Normalize(s[1..])
  }

  /** `email.split('@')[0]` */
  function LocalPart(email: string): string {
    if email == "" || email[0] == '@' then "" else [email[0]] + LocalPart(email[1..])
  }

  /** The display name, or the mailbox when there is none, reduced to name characters. */
  function BaseUsername(email: string, name: string): (r: string)
    ensures |r| >= 3 && forall i :: 0 <= i < |r| ==> NameChar(r[i])
  {
    var base := Normalize(if name != "" then name else LocalPart(email));
    if |base| < 3 then "user" else base
  }

  lemma NormalizeFirst(c: char, s: string)
    ensures Normalize([c] + s) == Normalize([c]) + Normalize(s)
  {
    assert [c][1..] == "" && ([c] + s)[1..] == s;
  }

  lemma PlusAssociates(a: string, b: string, c: string)
    ensures a + (b + c) == (a + b) + c
  {
  }

  lemma JoinsFirst(c: char, s: string, t: string)
    requires Normalize(s + t) == Normalize(s) + Normalize(t)
    ensures Normalize([c] + (s + t)) == Normalize([c] + s) + Normalize(t)
  {
    NormalizeFirst(c, s);
    NormalizeFirst(c, s + t);
    hide Normalize;
    PlusAssociates(Normalize([c]), Normalize(s), Normalize(t));
  }

  lemma {:induction false} NormalizeJoins(s: string, t: string)
    ensures Normalize(s + t) == Normalize(s) + Normalize(t)
  {
    if s == "" {
      assert s + t == t;
    } else {
      NormalizeJoins(s[1..], t);
      JoinsFirst(s[0], s[1..], t);
      hide Normalize;
      PlusAssociates([s[0]], s[1..], t);
      assert s == [s[0]] + s[1..];
    }
  }

  /** Character by character: capitals become small letters, and what is no name character goes. */
  lemma NormalizeChar(c: char)
    ensures Normalize([c]) == if 'A' <= c <= 'Z' then [(c as int + 32) as char]
                              else if 'a' <= c <= 'z' || '0' <= c <= '9' || c == '_' then [c] else ""
  {
    assert [c][1..] == "";
  }

  lemma {:induction false} LocalPartOf(local: string, host: string)
    requires '@' !in local
    ensures LocalPart(local + "@" + host) == local
  {
    if local != "" {
      LocalPartOf(local[1..], host);
      assert (local + "@" + host)[1..] == local[1..] + "@" + host;
    }
  }

  /** The name, or without one the mailbox, unless fewer than three characters of it are left. */
  lemma BaseIsTaken(local: string, host: string, name: string)
    requires '@' !in local
    ensures var chosen := if name == "" then local else name;
            var base := BaseUsername(local + "@" + host, name);
            if |Normalize(chosen)| >= 3 then base == Normalize(chosen) else base == "user"
  {
    LocalPartOf(local, host);
  }

  /** Terminates for every table, after at most one lookup more than it has users, with the
      first candidate that is free. */
  method GenerateUniqueUsername(email: string, name: string, users: set<string>)
    returns (username: string, counter: nat, lookups: nat)
    ensures username == Candidate(BaseUsername(email, name), counter) && username !in users
    ensures forall i :: 0 <= i < counter ==> Candidate(BaseUsername(email, name), i) in users
    ensures lookups == counter + 1 <= |users| + 1
  {
    var base := BaseUsername(email, name);
    var isUnique := false;
    username, counter, lookups := base, 0, 0;
    while !isUnique
      invariant !isUnique ==> lookups == counter && username == base
      invariant isUnique ==> lookups == counter + 1 && username == Candidate(base, counter) && username !in users
      invariant forall i :: 0 <= i < counter ==> Candidate(base, i) in users
      invariant counter <= |users|
      decreases !isUnique, |users| - counter
    {
      var candidate := if counter == 0 then username else username + Decimal(counter);
      lookups := lookups + 1;
      if candidate !in users {
        username, isUnique := candidate, true;
      } else {
        TakenRunIsBounded(base, counter + 1, users);
        counter := counter + 1;
      }
    }
  }

  lemma {:induction false} DecimalIsName(n: nat)
    ensures forall i :: 0 <= i < |Decimal(n)| ==> NameChar(Decimal(n)[i])
  {
    if n >= 10 {
      DecimalIsName(n / 10);
    }
  }

  /** Every candidate is a well-formed username. */
  lemma CandidateIsName(email: string, name: string, counter: nat)
    ensures var u := Candidate(BaseUsername(email, name), counter);
            |u| >= 3 && forall i :: 0 <= i < |u| ==> NameChar(u[i])
  {
    DecimalIsName(counter);
  }
}
