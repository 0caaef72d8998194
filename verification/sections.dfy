/**
 * Section identifiers and the order-preserving filters every renderer applies
 * to `sectionOrder` to split it into columns.
 */
module Sections {

  const Personal := "personal"
  const ExperienceId := "experience"
  const InternshipsId := "internships"
  const EducationId := "education"
  const SkillsId := "skills"
  const LanguagesId := "languages"
  const CertificatesId := "certificates"
  const ReferencesId := "references"

  /** The eight recognised section identifiers. */
  const KnownIds: set<string> :=
    {Personal, ExperienceId, InternshipsId, EducationId, SkillsId, LanguagesId, CertificatesId, ReferencesId}

  /** The order used when a document has none (the initial state and the renderers' destructuring defaults). */
  const DefaultOrder: seq<string> :=
    [Personal, ExperienceId, InternshipsId, EducationId, SkillsId, LanguagesId, CertificatesId, ReferencesId]

  /** `order.filter(id => ids.includes(id))`. */
  function KeepOnly(order: seq<string>, ids: set<string>): (r: seq<string>)
    ensures |r| <= |order|
    ensures forall x :: x in r <==> x in order && x in ids
  {
    if order == [] then []
    else (if order[0] in ids then [order[0]] else []) + KeepOnly(order[1..], ids)
  }

  /** `order.filter(id => !ids.includes(id))`. */
  function DropAll(order: seq<string>, ids: set<string>): (r: seq<string>)
    ensures |r| <= |order|
    ensures forall x :: x in r <==> x in order && x !in ids
  {
    if order == [] then []
    else (if order[0] !in ids then [order[0]] else []) + DropAll(order[1..], ids)
  }

  /** Filtering distributes over concatenation: together with the one-element case this says the filter keeps input order. */
  lemma {:induction false} KeepOnlyAppend(s: seq<string>, t: seq<string>, ids: set<string>)
    ensures KeepOnly(s + t, ids) == KeepOnly(s, ids) + KeepOnly(t, ids)
  {
    if s == [] {
      assert s + t == t;
    } else {
      assert (s + t)[0] == s[0];
      assert (s + t)[1..] == s[1..] + t;
      KeepOnlyAppend(s[1..], t, ids);
    }
  }

  lemma {:induction false} DropAllAppend(s: seq<string>, t: seq<string>, ids: set<string>)
    ensures DropAll(s + t, ids) == DropAll(s, ids) + DropAll(t, ids)
  {
    if s == [] {
      assert s + t == t;
    } else {
      assert (s + t)[0] == s[0];
      assert (s + t)[1..] == s[1..] + t;
      DropAllAppend(s[1..], t, ids);
    }
  }

  /** Keeping a set and dropping it split the order: every occurrence lands on exactly one side. */
  lemma {:induction false} KeepDropPartition(order: seq<string>, ids: set<string>)
    ensures multiset(KeepOnly(order, ids)) + multiset(DropAll(order, ids)) == multiset(order)
  {
    if order != [] {
      var h, rest := order[0], order[1..];
      KeepDropPartition(rest, ids);
      assert order == [h] + rest;
      var k := if h in ids then [h] else [];
      var d := if h !in ids then [h] else [];
      assert KeepOnly(order, ids) == k + KeepOnly(rest, ids);
      assert DropAll(order, ids) == d + DropAll(rest, ids);
      assert multiset(k) + multiset(d) == multiset([h]);
    }
  }

  /** Two filters over disjoint sets that together cover every identifier of the order split it. */
  lemma {:induction false} DisjointKeepPartition(order: seq<string>, a: set<string>, b: set<string>)
    requires a !! b
    requires forall x :: x in order ==> x in a + b
    ensures multiset(KeepOnly(order, a)) + multiset(KeepOnly(order, b)) == multiset(order)
  {
    if order != [] {
      var h, rest := order[0], order[1..];
      DisjointKeepPartition(rest, a, b);
      assert order == [h] + rest;
      assert h in a + b && !(h in a && h in b);
      var ka := if h in a then [h] else [];
      var kb := if h in b then [h] else [];
      assert KeepOnly(order, a) == ka + KeepOnly(rest, a);
      assert KeepOnly(order, b) == kb + KeepOnly(rest, b);
      assert multiset(ka) + multiset(kb) == multiset([h]);
    }
  }

  /** A filter over a superset of what it is given is the identity. */
  lemma {:induction false} KeepOnlyAll(order: seq<string>, ids: set<string>)
    requires forall x :: x in order ==> x in ids
    ensures KeepOnly(order, ids) == order
  {
    if order != [] {
      KeepOnlyAll(order[1..], ids);
      assert order == [order[0]] + order[1..];
    }
  }

  /** Filtering twice is filtering once by both sets. */
  lemma {:induction false} KeepOnlyTwice(order: seq<string>, a: set<string>, b: set<string>)
    ensures KeepOnly(KeepOnly(order, a), b) == KeepOnly(order, a * b)
  {
    if order != [] {
      KeepOnlyTwice(order[1..], a, b);
      var h := order[0];
      var ka := if h in a then [h] else [];
      KeepOnlyAppend(ka, KeepOnly(order[1..], a), b);
    }
  }

  /** Keeping after dropping is keeping the difference. */
  lemma {:induction false} DropThenKeep(order: seq<string>, a: set<string>, b: set<string>)
    ensures KeepOnly(DropAll(order, a), b) == KeepOnly(order, b - a)
  {
    if order != [] {
      DropThenKeep(order[1..], a, b);
      var h := order[0];
      var d := if h !in a then [h] else [];
      KeepOnlyAppend(d, DropAll(order[1..], a), b);
    }
  }

  /** A kept identifier occurs as often as in the order, repeats included; a dropped one never. */
  lemma {:induction false} KeepOnlyCounts(order: seq<string>, ids: set<string>, x: string)
    ensures multiset(KeepOnly(order, ids))[x] == if x in ids then multiset(order)[x] else 0
  {
    if order != [] {
      KeepOnlyCounts(order[1..], ids, x);
      var h := order[0];
      assert order == [h] + order[1..];
      var k := if h in ids then [h] else [];
      assert KeepOnly(order, ids) == k + KeepOnly(order[1..], ids);
    }
  }

  /** No identifier occurs twice. */
  predicate Distinct(s: seq<string>) {
    forall i, j :: 0 <= i < j < |s| ==> s[i] != s[j]
  }

  /** Filtering a sequence without repeats leaves one without repeats. */
  lemma {:induction false} KeepOnlyDistinct(order: seq<string>, ids: set<string>)
    requires Distinct(order)
    ensures Distinct(KeepOnly(order, ids))
  {
    if order != [] {
      var rest := order[1..];
      assert Distinct(rest) by {
        forall i, j | 0 <= i < j < |rest| ensures rest[i] != rest[j] {
          assert rest[i] == order[i + 1] && rest[j] == order[j + 1];
        }
      }
      KeepOnlyDistinct(rest, ids);
      assert order[0] !in rest by {
        forall k | 0 <= k < |rest| ensures rest[k] != order[0] {
          assert rest[k] == order[k + 1];
        }
      }
    }
  }

  /** A sequence with no member is empty. */
  lemma NoMemberIsEmpty(s: seq<string>)
    requires forall x :: x !in s
    ensures s == []
  {
    HeadIsMember(s);
  }

  lemma HeadIsMember(s: seq<string>)
    ensures s != [] ==> s[0] in s
  {
  }
}
