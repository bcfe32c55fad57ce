/** Lenient lookup of a member of a closed vocabulary (an `_CaseInsensitiveEnum`).

    A vocabulary is the ordered list of its declarations, each a pair (token, label): the member's
    Python name and its value. As in Python's `Enum`, a declaration whose label equals an earlier
    declaration's label is an alias of that earlier member rather than a member of its own, and a
    member is identified by the index of its first declaration.

    Looking a member up by name first tries the exact token (the enum's member map, aliases
    included); only when that fails does `_missing_name_` run, comparing the lowercased input with
    each member's lowercased label, in declaration order. */
module Vocabulary {
  import opened Wrappers

  type Declaration = (string, string)
  type Vocab = seq<Declaration>

  function Token(v: Vocab, i: nat): string
    requires i < |v|
  {
    v[i].0
  }

  function Label(v: Vocab, i: nat): string
    requires i < |v|
  {
    v[i].1
  }

  // ---------------------------------------------------------------------------------------------
  // Case folding (ASCII only: other characters are left unchanged)

  function LowerChar(c: char): char {
    if 'A' <= c <= 'Z' then (c as int + 32) as char else c
  }

  function UpperChar(c: char): char {
    if 'a' <= c <= 'z' then (c as int - 32) as char else c
  }

  /** `str.lower()` restricted to ASCII letters. */
  function Lower(s: string): (r: string)
    ensures |r| == |s|
    ensures forall i :: 0 <= i < |s| ==> r[i] == LowerChar(s[i])
  {
    seq(|s|, i requires 0 <= i < |s| => LowerChar(s[i]))
  }

  /** `str.upper()` restricted to ASCII letters. */
  function Upper(s: string): (r: string)
    ensures |r| == |s|
    ensures forall i :: 0 <= i < |s| ==> r[i] == UpperChar(s[i])
  {
    seq(|s|, i requires 0 <= i < |s| => UpperChar(s[i]))
  }

  lemma LowerIdempotent(s: string)
    ensures Lower(Lower(s)) == Lower(s)
  {
  }

  lemma LowerOfUpper(s: string)
    ensures Lower(Upper(s)) == Lower(s)
  {
  }

  // ---------------------------------------------------------------------------------------------
  // Members, aliases and well-formedness

  /** Declaration i is a member (not an alias): no earlier declaration has the same label. */
  predicate IsMember(v: Vocab, i: nat) {
    i < |v| && forall j :: 0 <= j < i ==> Label(v, j) != Label(v, i)
  }

  /** What Python's `Enum` insists on when the class is created: member names are distinct. */
  predicate WellFormed(v: Vocab) {
    forall i, j :: 0 <= i < j < |v| ==> Token(v, i) != Token(v, j)
  }

  /** The first declaration at or after `from` whose label is exactly `text`. */
  function FirstWithLabel(v: Vocab, text: string, from: nat): (r: Option<nat>)
    decreases |v| - from
    ensures r.Some? ==> from <= r.value < |v| && Label(v, r.value) == text
    ensures r.Some? ==> forall j :: from <= j < r.value ==> Label(v, j) != text
    ensures r.None? ==> forall j :: from <= j < |v| ==> Label(v, j) != text
  {
    if from >= |v| then None
    else if Label(v, from) == text then Some(from)
    else FirstWithLabel(v, text, from + 1)
  }

  /** The member a declaration stands for: itself, or the member it is an alias of. */
  function Canonical(v: Vocab, i: nat): (m: nat)
    requires i < |v|
    ensures m <= i && IsMember(v, m) && Label(v, m) == Label(v, i)
  {
    FirstWithLabel(v, Label(v, i), 0).value
  }

  lemma CanonicalOfMember(v: Vocab, i: nat)
    requires IsMember(v, i)
    ensures Canonical(v, i) == i
  {
  }

  // ---------------------------------------------------------------------------------------------
  // Exact lookup by token, fallback by label, and the two combined

  /** The declaration whose token is exactly `raw`, searched from `from` (the enum's member map). */
  function TokenFrom(v: Vocab, raw: string, from: nat): (r: Option<nat>)
    decreases |v| - from
    ensures r.Some? ==> from <= r.value < |v| && Token(v, r.value) == raw
    ensures r.None? ==> forall j :: from <= j < |v| ==> Token(v, j) != raw
  {
    if from >= |v| then None
    else if Token(v, from) == raw then Some(from)
    else TokenFrom(v, raw, from + 1)
  }

  function TokenIndex(v: Vocab, raw: string): Option<nat> {
    TokenFrom(v, raw, 0)
  }

  lemma TokenIndexUnique(v: Vocab, i: nat)
    requires WellFormed(v) && i < |v|
    ensures TokenIndex(v, Token(v, i)) == Some(i)
  {
  }

  /** The loop of `_missing_name_` from index `from` on: the first member whose lowercased label
      equals `lowered`. Aliases are skipped, as iterating over an `Enum` skips them. */
  function LabelFrom(v: Vocab, lowered: string, from: nat): (r: Option<nat>)
    decreases |v| - from
    ensures r.Some? ==> from <= r.value && IsMember(v, r.value) && Lower(Label(v, r.value)) == lowered
    ensures r.Some? ==> forall j :: from <= j < r.value && IsMember(v, j) ==> Lower(Label(v, j)) != lowered
    ensures r.None? ==> forall j :: from <= j < |v| && IsMember(v, j) ==> Lower(Label(v, j)) != lowered
  {
    if from >= |v| then None
    else if IsMember(v, from) && Lower(Label(v, from)) == lowered then Some(from)
    else LabelFrom(v, lowered, from + 1)
  }

  /** What `_missing_name_` returns for `value`. */
  function CaseInsensitiveMatch(v: Vocab, value: string): Option<nat> {
    LabelFrom(v, Lower(value), 0)
  }

  /** Looking a member up by name: exact token first, `_missing_name_` otherwise
      (`None` here is the `KeyError` the lookup then raises). */
  function Resolve(v: Vocab, raw: string): Option<nat> {
    match TokenIndex(v, raw)
    case Some(i) => Some(Canonical(v, i))
    case None => CaseInsensitiveMatch(v, raw)
  }

  /** The for-loop of `_missing_name_`, with its early return; iterating over the enum visits
      the members only, so aliases are passed over. */
  method MissingName(v: Vocab, value: string) returns (r: Option<nat>)
    ensures r == CaseInsensitiveMatch(v, value)
  {
    var lowered := Lower(value);
    for i := 0 to |v|
      invariant LabelFrom(v, lowered, 0) == LabelFrom(v, lowered, i)
    {
      if IsMember(v, i) && Lower(v[i].1) == lowered {
        return Some(i);
      }
    }
    return None;
  }

  // ---------------------------------------------------------------------------------------------
  // Properties of the fallback and of the whole lookup

  /** Whatever the lookup returns is a member, found either through its own token or an alias
      token, or through a label equal to the input up to case. */
  lemma ResolveSound(v: Vocab, raw: string)
    requires Resolve(v, raw).Some?
    ensures IsMember(v, Resolve(v, raw).value)
    ensures TokenIndex(v, raw).Some? ==>
      Label(v, TokenIndex(v, raw).value) == Label(v, Resolve(v, raw).value)
    ensures TokenIndex(v, raw).None? ==> Lower(Label(v, Resolve(v, raw).value)) == Lower(raw)
  {
  }

  /** An alias matches exactly when the member it stands for does, and that member comes first. */
  lemma AliasMatchImpliesEarlierMember(v: Vocab, j: nat, lowered: string)
    requires j < |v| && Lower(Label(v, j)) == lowered
    ensures Canonical(v, j) <= j && IsMember(v, Canonical(v, j))
    ensures Lower(Label(v, Canonical(v, j))) == lowered
  {
  }

  /** First match wins, among all declarations: the fallback returns the earliest declaration
      whose lowercased label equals the lowercased input. */
  lemma {:induction false} FallbackFirstMatch(v: Vocab, raw: string)
    requires CaseInsensitiveMatch(v, raw).Some?
    ensures var m := CaseInsensitiveMatch(v, raw).value;
      m < |v| && Lower(Label(v, m)) == Lower(raw) &&
      forall j :: 0 <= j < m ==> Lower(Label(v, j)) != Lower(raw)
  {
    var m := CaseInsensitiveMatch(v, raw).value;
    forall j | 0 <= j < m
      ensures Lower(Label(v, j)) != Lower(raw)
    {
      if Lower(Label(v, j)) == Lower(raw) {
        AliasMatchImpliesEarlierMember(v, j, Lower(raw));
        assert false;
      }
    }
  }

  /** The fallback fails exactly when no declaration's lowercased label equals the input's. */
  lemma {:induction false} FallbackFailsIffNoMatch(v: Vocab, raw: string)
    ensures CaseInsensitiveMatch(v, raw).None? <==>
      forall j :: 0 <= j < |v| ==> Lower(Label(v, j)) != Lower(raw)
  {
    if CaseInsensitiveMatch(v, raw).None? {
      forall j | 0 <= j < |v|
        ensures Lower(Label(v, j)) != Lower(raw)
      {
        if Lower(Label(v, j)) == Lower(raw) {
          AliasMatchImpliesEarlierMember(v, j, Lower(raw));
          assert false;
        }
      }
    }
  }

  /** The whole lookup fails exactly when no token equals the input and no label equals it up
      to case. */
  lemma ResolveFailsIffNoMatch(v: Vocab, raw: string)
    ensures Resolve(v, raw).None? <==>
      (forall j :: 0 <= j < |v| ==> Token(v, j) != raw) &&
      (forall j :: 0 <= j < |v| ==> Lower(Label(v, j)) != Lower(raw))
  {
    FallbackFailsIffNoMatch(v, raw);
  }

  /** The fallback looks at labels only: two vocabularies with the same labels in the same order
      give the same answer, whatever their tokens. */
  lemma {:induction false} FallbackIgnoresTokens(v: Vocab, w: Vocab, lowered: string, from: nat)
    requires |v| == |w|
    requires forall i :: 0 <= i < |v| ==> Label(v, i) == Label(w, i)
    ensures LabelFrom(v, lowered, from) == LabelFrom(w, lowered, from)
    decreases |v| - from
  {
    if from < |v| {
      assert IsMember(v, from) == IsMember(w, from);
      FallbackIgnoresTokens(v, w, lowered, from + 1);
    }
  }

  /** Case invariance of the fallback: inputs equal up to case give the same member, or both
      fail. */
  lemma FallbackCaseInvariant(v: Vocab, a: string, b: string)
    requires Lower(a) == Lower(b)
    ensures CaseInsensitiveMatch(v, a) == CaseInsensitiveMatch(v, b)
  {
  }

  /** Case invariance of the whole lookup, for inputs that are not tokens. */
  lemma ResolveCaseInvariant(v: Vocab, a: string, b: string)
    requires Lower(a) == Lower(b)
    requires TokenIndex(v, a).None? && TokenIndex(v, b).None?
    ensures Resolve(v, a) == Resolve(v, b)
  {
  }

  /** Declarations sharing a label (a member and its alias) resolve, by token, to the same
      member: the one declared first. */
  lemma {:induction false} AliasTokensAgree(v: Vocab, i: nat, j: nat)
    requires WellFormed(v) && i < |v| && j < |v| && Label(v, i) == Label(v, j)
    ensures Resolve(v, Token(v, i)) == Resolve(v, Token(v, j)) == Some(Canonical(v, i))
    ensures Canonical(v, i) <= i && Canonical(v, i) <= j
  {
    TokenIndexUnique(v, i);
    TokenIndexUnique(v, j);
    assert Canonical(v, i) == Canonical(v, j);
  }

  /** A member's own token resolves to that member. */
  lemma ResolveOwnToken(v: Vocab, m: nat)
    requires WellFormed(v) && IsMember(v, m)
    ensures Resolve(v, Token(v, m)) == Some(m)
  {
    TokenIndexUnique(v, m);
  }

  // ---------------------------------------------------------------------------------------------
  // Vocabularies whose labels are distinct up to case resolve every spelling of a label

  /** Distinct members have labels that differ even after lowercasing. */
  predicate CaseDistinct(v: Vocab) {
    forall i, j :: 0 <= i < j < |v| && IsMember(v, i) && IsMember(v, j) ==>
      Lower(Label(v, i)) != Lower(Label(v, j))
  }

  /** A token that equals some declaration's label up to case belongs to a declaration with that
      very label; so an exact token hit never contradicts the label search. */
  predicate TokensAgreeWithLabels(v: Vocab) {
    forall i, j :: 0 <= i < |v| && 0 <= j < |v| && Lower(Token(v, i)) == Lower(Label(v, j)) ==>
      Label(v, i) == Label(v, j)
  }

  /** A declaration sharing its label with member m stands for m. */
  lemma CanonicalOfSameLabel(v: Vocab, i: nat, m: nat)
    requires i < |v| && IsMember(v, m) && Label(v, i) == Label(v, m)
    ensures Canonical(v, i) == m
  {
  }

  predicate Coherent(v: Vocab) {
    WellFormed(v) && CaseDistinct(v) && TokensAgreeWithLabels(v)
  }

  /** In a coherent vocabulary, every input equal to a member's label up to case resolves to that
      member: its label as declared, lowercased, uppercased or in any other mix of cases. */
  lemma {:induction false} ResolveAnyCaseOfLabel(v: Vocab, m: nat, raw: string)
    requires Coherent(v) && IsMember(v, m)
    requires Lower(raw) == Lower(Label(v, m))
    ensures Resolve(v, raw) == Some(m)
  {
    match TokenIndex(v, raw)
    case Some(i) =>
      CanonicalOfSameLabel(v, i, m);
    case None =>
      var r := CaseInsensitiveMatch(v, raw);
      if r.None? {
        assert false;
      } else if r.value < m {
        assert false;
      } else if r.value > m {
        assert false;
      }
  }

  lemma ResolveLabelSpellings(v: Vocab, m: nat)
    requires Coherent(v) && IsMember(v, m)
    ensures Resolve(v, Label(v, m)) == Some(m)
    ensures Resolve(v, Lower(Label(v, m))) == Some(m)
    ensures Resolve(v, Upper(Label(v, m))) == Some(m)
  {
    ResolveAnyCaseOfLabel(v, m, Label(v, m));
    LowerIdempotent(Label(v, m));
    ResolveAnyCaseOfLabel(v, m, Lower(Label(v, m)));
    LowerOfUpper(Label(v, m));
    ResolveAnyCaseOfLabel(v, m, Upper(Label(v, m)));
  }
}
