// internal/model/job.go: Slug, the reserved id namespaces, and Validate's id
// checks; internal/daemon/runhold.go: the ids of run holds.
module Numerals {
  predicate Digit(c: char) { '0' <= c <= '9' }

  ghost predicate Digits(s: string) {
    forall i :: 0 <= i < |s| ==> Digit(s[i])
  }

  /** The %d rendering of a natural number. */
  function Decimal(n: nat): (s: string)
    ensures s != "" && Digits(s)
  {
    var d := ['0' + (n % 10) as char];
    if n < 10 then d else Decimal(n / 10) + d
  }

  /** The number a run of decimal digits denotes. */
  function Value(s: string): nat
    requires Digits(s)
  {
    if s == "" then 0 else 10 * Value(s[..|s| - 1]) + (s[|s| - 1] - '0') as nat
  }

  lemma {:induction false} ValueOfDecimal(n: nat)
    ensures Value(Decimal(n)) == n
  {
    var d := ['0' + (n % 10) as char];
    if n < 10 {
      assert d[..0] == "";
    } else {
      ValueOfDecimal(n / 10);
      assert (Decimal(n / 10) + d)[..|Decimal(n / 10)|] == Decimal(n / 10);
    }
  }

  lemma {:induction false} ValueAppend(a: string, d: char)
    requires Digits(a) && Digit(d)
    ensures Digits(a + [d]) && Value(a + [d]) == 10 * Value(a) + (d - '0') as nat
  {
    assert (a + [d])[..|a|] == a;
  }
}

module Slugs {
  import opened Text
  import opened Numerals

  predicate Lower(c: char) { 'a' <= c <= 'z' }

  predicate Alnum(c: char) { Lower(c) || Digit(c) }

  predicate Kept(c: char) { Alnum(c) || c == '.' || c == '_' }

  predicate Edge(c: char) { c == '-' || c == '.' || c == '_' }

  /** What is used of Unicode lower-casing: it is the usual one on ASCII and
      leaves spaces alone. Elsewhere it is arbitrary. */
  ghost predicate Lowercasing(lower: char -> char) {
    && (forall c: char :: c < '\U{80}' ==>
      lower(c) == if 'A' <= c <= 'Z' then 'a' + (c - 'A') else c)
    && (forall c: char :: IsSpace(c) ==> lower(c) == c)
  }

  function Map(f: char -> char, s: string): (r: string)
    ensures |r| == |s| && forall i :: 0 <= i < |s| ==> r[i] == f(s[i])
  {
    seq(|s|, i requires 0 <= i < |s| => f(s[i]))
  }

  /** Keeps slug runes and turns every other run of runes into one dash;
      dashed says that the text so far already ends in a dash. */
  function Squeeze(s: string, dashed: bool): string {
    if s == "" then ""
    else if Kept(s[0]) then [s[0]] + Squeeze(s[1..], false)
    else if dashed then Squeeze(s[1..], true)
    else "-" + Squeeze(s[1..], true)
  }

  function SlugOf(lower: char -> char, name: string): string {
    Trim(Squeeze(Map(lower, TrimSpace(name)), true), Edge)
  }

  lemma SqueezeStep(s: string, b: string, dashed: bool)
    requires s != ""
    ensures b + Squeeze(s, dashed) ==
      if Kept(s[0]) then (b + [s[0]]) + Squeeze(s[1..], false)
      else if dashed then b + Squeeze(s[1..], true)
      else (b + "-") + Squeeze(s[1..], true)
  {
    hide Kept;
    if Kept(s[0]) {
      assert (b + [s[0]]) + Squeeze(s[1..], false) == b + ([s[0]] + Squeeze(s[1..], false));
    } else if !dashed {
      assert (b + "-") + Squeeze(s[1..], true) == b + ("-" + Squeeze(s[1..], true));
    }
  }

  /** The loop of Slug, over the lower-cased name. */
  method WriteRunes(text: string) returns (b: string)
    ensures b == Squeeze(text, true)
  {
    b := "";
    var rest, lastDash := text, true;
    while rest != ""
      invariant Squeeze(text, true) == b + Squeeze(rest, lastDash)
      decreases |rest|
    {
      SqueezeStep(rest, b, lastDash);
      if Kept(rest[0]) {
        b, lastDash := b + [rest[0]], false;
      } else if !lastDash {
        b, lastDash := b + "-", true;
      }
      rest := rest[1..];
    }
  }

  method Slug(lower: char -> char, name: string) returns (slug: string)
    ensures slug == SlugOf(lower, name)
  {
    var b := WriteRunes(Map(lower, TrimSpace(name)));
    slug := Trim(b, Edge);
  }

  /** The shape of a slug: slug runes only, no doubled dash, and both ends
      alphanumeric. */
  ghost predicate WellFormed(s: string) {
    && (forall i :: 0 <= i < |s| ==> Kept(s[i]) || s[i] == '-')
    && (forall i :: 0 <= i < |s| - 1 ==> !(s[i] == '-' && s[i + 1] == '-'))
    && Trimmed(s, Edge)
  }

  ghost predicate NoDoubleDash(s: string) {
    forall i :: 0 <= i < |s| - 1 ==> !(s[i] == '-' && s[i + 1] == '-')
  }

  lemma {:induction false} SqueezeShape(s: string, dashed: bool)
    ensures forall c :: c in Squeeze(s, dashed) ==> Kept(c) || c == '-'
    ensures NoDoubleDash(Squeeze(s, dashed))
    ensures dashed && Squeeze(s, dashed) != "" ==> Squeeze(s, dashed)[0] != '-'
  {
    if s != "" {
      SqueezeShape(s[1..], !Kept(s[0]));
    }
  }

  lemma TrimmedShape(s: string, pre: string, t: string, suf: string)
    requires s == pre + (t + suf) && NoDoubleDash(s)
    requires forall c :: c in s ==> Kept(c) || c == '-'
    ensures NoDoubleDash(t)
    ensures forall i :: 0 <= i < |t| ==> Kept(t[i]) || t[i] == '-'
  {
    assert forall i :: 0 <= i < |t| ==> t[i] == s[|pre| + i];
  }

  /** Every slug has the slug shape. */
  lemma SlugWellFormed(lower: char -> char, name: string)
    ensures WellFormed(SlugOf(lower, name))
  {
    hide Squeeze, Trim, TrimSpace, Map;
    var squeezed := Squeeze(Map(lower, TrimSpace(name)), true);
    SqueezeShape(Map(lower, TrimSpace(name)), true);
    var pre, suf := TrimSplit(squeezed, Edge);
    TrimmedShape(squeezed, pre, Trim(squeezed, Edge), suf);
  }

  lemma {:induction false} SqueezeFixed(s: string, dashed: bool)
    requires forall i :: 0 <= i < |s| ==> Kept(s[i]) || s[i] == '-'
    requires NoDoubleDash(s)
    requires dashed && s != "" ==> s[0] != '-'
    ensures Squeeze(s, dashed) == s
  {
    if s != "" {
      assert s[1..] != "" ==> s[1..][0] == s[1];
      assert NoDoubleDash(s[1..]) by {
        forall i | 0 <= i < |s[1..]| - 1
          ensures !(s[1..][i] == '-' && s[1..][i + 1] == '-')
        {
          assert s[1..][i] == s[i + 1] && s[1..][i + 1] == s[i + 2];
        }
      }
      SqueezeFixed(s[1..], !Kept(s[0]));
      assert [s[0]] + s[1..] == s;
    }
  }

  /** A name is its own slug exactly when it has the slug shape. */
  lemma SlugFixedIff(lower: char -> char, s: string)
    requires Lowercasing(lower)
    ensures SlugOf(lower, s) == s <==> WellFormed(s)
  {
    hide Squeeze, Trim, Map;
    SlugWellFormed(lower, s);
    if WellFormed(s) {
      TrimFixed(s, IsSpace);
      assert forall i :: 0 <= i < |s| ==> lower(s[i]) == s[i];
      assert Map(lower, s) == s;
      SqueezeFixed(s, true);
      TrimFixed(s, Edge);
    }
  }

  lemma SlugIdempotent(lower: char -> char, name: string)
    requires Lowercasing(lower)
    ensures SlugOf(lower, SlugOf(lower, name)) == SlugOf(lower, name)
  {
    SlugWellFormed(lower, name);
    SlugFixedIff(lower, SlugOf(lower, name));
  }

  /** The letters and digits of a text, in order. */
  function Letters(s: string): string {
    if s == "" then "" else (if Alnum(s[0]) then [s[0]] else "") + Letters(s[1..])
  }

  lemma LettersCons(c: char, s: string)
    ensures Letters([c] + s) == (if Alnum(c) then [c] else "") + Letters(s)
    ensures Letters("") == ""
  {
    assert ([c] + s)[1..] == s;
  }

  lemma {:induction false} LettersAppend(a: string, b: string)
    ensures Letters(a + b) == Letters(a) + Letters(b)
  {
    hide Letters;
    if a == "" {
      LettersCons('a', "");
      assert a + b == b;
    } else {
      var c, rest := a[0], a[1..];
      LettersAppend(rest, b);
      LettersCons(c, rest);
      LettersCons(c, rest + b);
      assert a == [c] + rest;
      assert a + b == [c] + (rest + b);
    }
  }

  lemma {:induction false} LettersNone(s: string)
    requires forall i :: 0 <= i < |s| ==> !Alnum(s[i])
    ensures Letters(s) == ""
  {
    if s != "" { LettersNone(s[1..]); }
  }

  lemma {:induction false} LettersSqueeze(s: string, dashed: bool)
    ensures Letters(Squeeze(s, dashed)) == Letters(s)
  {
    if s != "" {
      LettersSqueeze(s[1..], !Kept(s[0]));
      var r := Squeeze(s[1..], !Kept(s[0]));
      if Kept(s[0]) {
        assert ([s[0]] + r)[1..] == r;
      } else {
        assert ("-" + r)[1..] == r;
      }
    }
  }

  lemma LettersTrim(s: string, p: char -> bool)
    requires forall c :: p(c) ==> !Alnum(c)
    ensures Letters(Trim(s, p)) == Letters(s)
  {
    var pre, suf := TrimSplit(s, p);
    LettersNone(pre);
    LettersNone(suf);
    LettersAppend(pre, Trim(s, p) + suf);
    LettersAppend(Trim(s, p), suf);
  }

  lemma LettersMap(lower: char -> char, pre: string, t: string, suf: string)
    requires Lowercasing(lower)
    requires All(pre, IsSpace) && All(suf, IsSpace)
    ensures Letters(Map(lower, pre + (t + suf))) == Letters(Map(lower, t))
  {
    hide Letters;
    assert Map(lower, pre + (t + suf)) == pre + (Map(lower, t) + suf);
    LettersAppend(pre, Map(lower, t) + suf);
    LettersAppend(Map(lower, t), suf);
    LettersNone(pre);
    LettersNone(suf);
  }

  /** Slugging loses no letter or digit of the lower-cased name and reorders
      none; only punctuation is rewritten. */
  lemma SlugKeepsLetters(lower: char -> char, name: string)
    requires Lowercasing(lower)
    ensures Letters(SlugOf(lower, name)) == Letters(Map(lower, name))
  {
    hide Squeeze, Trim, Letters, Map;
    var pre, suf := TrimSplit(name, IsSpace);
    LettersMap(lower, pre, TrimSpace(name), suf);
    LettersSqueeze(Map(lower, TrimSpace(name)), true);
    LettersTrim(Squeeze(Map(lower, TrimSpace(name)), true), Edge);
  }
}

/** The ids of open holds: a registered job's, the manual keep-awake window's,
    and those of `goguma run` holds, keyed or counted. */
module Ids {
  import opened Text
  import opened Numerals
  import Slugs

  const KEEP_AWAKE_JOB_ID := "__keep_awake__"
  const RUN_HOLD_PREFIX := "__run__:"

  datatype Id =
    | JobId(slug: string)
    | KeepAwake
    | Keyed(key: string)
    | Counted(n: nat)
  {
    /** Whether the hold is a user's own window rather than a job's. */
    predicate Manual() { !JobId? }
  }

  /** The string the daemon uses for an id. */
  function Render(id: Id): string {
    match id
    case JobId(slug) => slug
    case KeepAwake => KEEP_AWAKE_JOB_ID
    case Keyed(key) => RUN_HOLD_PREFIX + "k:" + key
    case Counted(n) => RUN_HOLD_PREFIX + Decimal(n)
  }

  /** The test hold.manual performs on the rendered id. */
  predicate ManualText(id: string) {
    id == KEEP_AWAKE_JOB_ID || HasPrefix(id, RUN_HOLD_PREFIX)
  }

  /** The test releaseAgentHolds performs on the rendered id. */
  predicate AgentText(id: string) {
    HasPrefix(id, RUN_HOLD_PREFIX + "k:")
  }

  /** Validate's checks on a job's id. */
  predicate AcceptsJobId(id: string) {
    id != "" && id != KEEP_AWAKE_JOB_ID && !HasPrefix(id, RUN_HOLD_PREFIX)
  }

  ghost predicate ValidId(id: Id) {
    id.JobId? ==> AcceptsJobId(id.slug)
  }

  /** No name a user can type yields a reserved id. */
  lemma SlugsAreNotReserved(lower: char -> char, name: string)
    ensures AcceptsJobId(Slugs.SlugOf(lower, name)) <==> Slugs.SlugOf(lower, name) != ""
  {
    Slugs.SlugWellFormed(lower, name);
    var slug := Slugs.SlugOf(lower, name);
    if HasPrefix(slug, RUN_HOLD_PREFIX) {
      assert slug[0] == RUN_HOLD_PREFIX[0] == '_';
    }
  }

  lemma CountedIsNotAgent(n: nat)
    ensures !AgentText(Render(Counted(n)))
  {
    var agent := RUN_HOLD_PREFIX + "k:";
    assert agent[|RUN_HOLD_PREFIX|] == 'k';
    assert Render(Counted(n))[|RUN_HOLD_PREFIX|] == Decimal(n)[0];
  }

  lemma KeepAwakeIsNotRun()
    ensures !HasPrefix(KEEP_AWAKE_JOB_ID, RUN_HOLD_PREFIX)
  {
    assert KEEP_AWAKE_JOB_ID[2] == 'k' && RUN_HOLD_PREFIX[2] == 'r';
  }

  lemma AgentIsRun(id: string)
    ensures AgentText(id) ==> HasPrefix(id, RUN_HOLD_PREFIX)
  {
    assert (RUN_HOLD_PREFIX + "k:")[..|RUN_HOLD_PREFIX|] == RUN_HOLD_PREFIX;
  }

  /** The prefix tests on rendered ids decide exactly the kind of the id. */
  lemma RenderKinds(id: Id)
    requires ValidId(id)
    ensures ManualText(Render(id)) <==> id.Manual()
    ensures AgentText(Render(id)) <==> id.Keyed?
    ensures HasPrefix(Render(id), RUN_HOLD_PREFIX) <==> id.Keyed? || id.Counted?
  {
    AgentIsRun(Render(id));
    KeepAwakeIsNotRun();
    if id.Keyed? {
      assert Render(id) == (RUN_HOLD_PREFIX + "k:") + id.key;
    } else if id.Counted? {
      CountedIsNotAgent(id.n);
    }
  }

  lemma CancelPrefix(p: string, a: string, b: string)
    requires p + a == p + b
    ensures a == b
  {
    assert (p + a)[|p|..] == a;
    assert (p + b)[|p|..] == b;
  }

  /** Distinct holds have distinct ids: the four namespaces are disjoint, keyed
      ids are injective in the key and counted ids in the counter. */
  lemma RenderInjective(a: Id, b: Id)
    requires ValidId(a) && ValidId(b)
    ensures Render(a) == Render(b) <==> a == b
  {
    RenderKinds(a);
    RenderKinds(b);
    if Render(a) == Render(b) && a.Keyed? {
      CancelPrefix(RUN_HOLD_PREFIX + "k:", a.key, b.key);
    } else if Render(a) == Render(b) && a.Counted? {
      CancelPrefix(RUN_HOLD_PREFIX, Decimal(a.n), Decimal(b.n));
      ValueOfDecimal(a.n);
      ValueOfDecimal(b.n);
    }
  }
}
