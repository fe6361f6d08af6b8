/** The active-club context of `useClub`: the slug derived from a club
    name, and `createClub`, which inserts the club and makes it active. */
module Club {
  import opened Wrappers

  const DemoClubId: string := "a0eebc99-9c0b-4ef8-bb6d-6bb9bd380a11"
  const DemoClubName: string := "Ashford Town FC"

  // ---------------------------------------------------------------------
  // The slug: `name.toLowerCase().replace(/ /g, '-').replace(/[^\w-]+/g, '')`.

  const KelvinSign: char := '\U{212A}'
  const CapitalIWithDotAbove: char := '\U{0130}'
  const CombiningDotAbove: char := '\U{0307}'

  predicate IsAsciiUpper(c: char) { 'A' <= c <= 'Z' }
  predicate IsAsciiLower(c: char) { 'a' <= c <= 'z' }
  predicate IsDigit(c: char) { '0' <= c <= '9' }

  /** The characters the pattern `[\w-]` matches (no `u` flag, so `\w` is
      ASCII only). */
  predicate IsWordOrHyphen(c: char)
  {
    IsAsciiUpper(c) || IsAsciiLower(c) || IsDigit(c) || c == '_' || c == '-'
  }

  /** The characters a slug is made of. */
  predicate IsSlugChar(c: char)
  {
    IsAsciiLower(c) || IsDigit(c) || c == '_' || c == '-'
  }

  function AsciiLower(c: char): char
    requires IsAsciiUpper(c)
  {
    (c as int + 32) as char
  }

  /** The lower-case mapping of one character. ASCII letters, and the two
      non-ASCII characters whose lower case contains an ASCII letter, are
      mapped as `toLowerCase` maps them; any other character is kept, which
      the slug cannot tell apart from its true lower case, because the last
      step drops every non-ASCII character. */
  function LowerChar(c: char): (r: seq<char>)
    ensures 1 <= |r| <= 2
    ensures forall i :: 0 <= i < |r| ==> !IsAsciiUpper(r[i])
  {
    if IsAsciiUpper(c) then [AsciiLower(c)]
    else if c == KelvinSign then ['k']
    else if c == CapitalIWithDotAbove then ['i', CombiningDotAbove]
    else [c]
  }

  /** `toLowerCase`. */
  function Lower(s: string): (r: string)
    ensures forall i :: 0 <= i < |r| ==> !IsAsciiUpper(r[i])
  {
    if s == [] then [] else LowerChar(s[0]) + Lower(s[1..])
  }

  /** `replace(/ /g, '-')`: every space becomes a hyphen. */
  function Hyphenate(s: string): (r: string)
    ensures |r| == |s|
    ensures forall i :: 0 <= i < |s| ==> r[i] == (if s[i] == ' ' then '-' else s[i])
  {
    seq(|s|, i requires 0 <= i < |s| => if s[i] == ' ' then '-' else s[i])
  }

  /** `replace(/[^\w-]+/g, '')`: every other character is deleted. */
  function StripNonWord(s: string): (r: string)
    ensures |r| <= |s|
    ensures forall i :: 0 <= i < |r| ==> IsWordOrHyphen(r[i])
    ensures forall c :: c in r ==> c in s
  {
    if s == [] then []
    else (if IsWordOrHyphen(s[0]) then [s[0]] else []) + StripNonWord(s[1..])
  }

  function Slug(name: string): (slug: string)
    ensures forall i :: 0 <= i < |slug| ==> IsSlugChar(slug[i])
  {
    var lowered := Lower(name);
    var hyphened := Hyphenate(lowered);
    assert forall c :: c in hyphened ==> !IsAsciiUpper(c);
    StripNonWord(hyphened)
  }

  /** The reference reading of the slug, one name character at a time: a
      space or hyphen gives one hyphen, a letter its lower case, a digit or
      underscore itself, and anything else nothing. */
  function SlugOfChar(c: char): (r: string)
    ensures |r| <= 1
  {
    if c == ' ' || c == '-' then "-"
    else if IsAsciiUpper(c) then [AsciiLower(c)]
    else if IsAsciiLower(c) || IsDigit(c) || c == '_' then [c]
    else if c == KelvinSign then "k"
    else if c == CapitalIWithDotAbove then "i"
    else []
  }

  function CharwiseSlug(name: string): string
  {
    if name == [] then [] else SlugOfChar(name[0]) + CharwiseSlug(name[1..])
  }

  lemma HyphenateAppend(a: string, b: string)
    ensures Hyphenate(a + b) == Hyphenate(a) + Hyphenate(b)
  {
  }

  lemma {:induction false} StripNonWordAppend(a: string, b: string)
    ensures StripNonWord(a + b) == StripNonWord(a) + StripNonWord(b)
    decreases |a|
  {
    if a == [] {
      assert a + b == b;
    } else {
      assert (a + b)[1..] == a[1..] + b;
      StripNonWordAppend(a[1..], b);
    }
  }

  /** Each character of the name contributes to the slug on its own. */
  lemma {:induction false} SlugIsCharwise(name: string)
    ensures Slug(name) == CharwiseSlug(name)
    decreases |name|
  {
    if name != [] {
      var c, rest := name[0], name[1..];
      assert Lower(name) == LowerChar(c) + Lower(rest);
      HyphenateAppend(LowerChar(c), Lower(rest));
      StripNonWordAppend(Hyphenate(LowerChar(c)), Hyphenate(Lower(rest)));
      SlugIsCharwise(rest);
      if c == CapitalIWithDotAbove {
        assert Hyphenate(LowerChar(c)) == ['i', CombiningDotAbove];
        assert StripNonWord(['i', CombiningDotAbove]) == ['i'] + StripNonWord([CombiningDotAbove]);
      } else {
        assert |LowerChar(c)| == 1;
      }
    } else {
      assert Lower(name) == [];
    }
  }

  /** The slug is never longer than the name. */
  lemma {:induction false} SlugNoLonger(name: string)
    ensures |Slug(name)| <= |name|
  {
    SlugIsCharwise(name);
    CharwiseNoLonger(name);
  }

  lemma {:induction false} CharwiseNoLonger(name: string)
    ensures |CharwiseSlug(name)| <= |name|
    decreases |name|
  {
    if name != [] {
      CharwiseNoLonger(name[1..]);
    }
  }

  /** A string made only of slug characters is its own slug. */
  lemma {:induction false} SlugFixesSlugs(s: string)
    requires forall i :: 0 <= i < |s| ==> IsSlugChar(s[i])
    ensures Slug(s) == s
  {
    SlugIsCharwise(s);
    CharwiseFixesSlugs(s);
  }

  lemma {:induction false} CharwiseFixesSlugs(s: string)
    requires forall i :: 0 <= i < |s| ==> IsSlugChar(s[i])
    ensures CharwiseSlug(s) == s
    decreases |s|
  {
    if s != [] {
      CharwiseFixesSlugs(s[1..]);
      assert SlugOfChar(s[0]) == [s[0]];
    }
  }

  /** Slugifying a slug changes nothing. */
  lemma SlugIdempotent(name: string)
    ensures Slug(Slug(name)) == Slug(name)
  {
    SlugFixesSlugs(Slug(name));
  }

  function Occurrences(s: string, c: char): nat
  {
    if s == [] then 0 else (if s[0] == c then 1 else 0) + Occurrences(s[1..], c)
  }

  lemma {:induction false} OccurrencesAppend(a: string, b: string, c: char)
    ensures Occurrences(a + b, c) == Occurrences(a, c) + Occurrences(b, c)
    decreases |a|
  {
    if a == [] {
      assert a + b == b;
    } else {
      assert (a + b)[1..] == a[1..] + b;
      OccurrencesAppend(a[1..], b, c);
    }
  }

  /** Spaces are not collapsed: the slug has one hyphen for every space and
      every hyphen of the name. */
  lemma {:induction false} SlugHyphenCount(name: string)
    ensures Occurrences(Slug(name), '-') == Occurrences(name, ' ') + Occurrences(name, '-')
  {
    SlugIsCharwise(name);
    CharwiseHyphenCount(name);
  }

  lemma {:induction false} CharwiseHyphenCount(name: string)
    ensures Occurrences(CharwiseSlug(name), '-') == Occurrences(name, ' ') + Occurrences(name, '-')
    decreases |name|
  {
    if name != [] {
      CharwiseHyphenCount(name[1..]);
      OccurrencesAppend(SlugOfChar(name[0]), CharwiseSlug(name[1..]), '-');
    }
  }

  // ---------------------------------------------------------------------
  // The active club.

  /** The row `createClub` inserts. */
  datatype NewClub = NewClub(name: string, slug: string)

  /** The inserted row as the data service returns it. */
  datatype ClubRecord = ClubRecord(id: string, name: string, slug: string)

  datatype DbError = DbError(message: string)

  /** The module-level `activeClubId` and `activeClubName`. */
  class ClubContext {
    var activeClubId: string
    var activeClubName: string

    /** The demo club is active until another one is created. */
    constructor ()
      ensures activeClubId == DemoClubId && activeClubName == DemoClubName
    {
      activeClubId := DemoClubId;
      activeClubName := DemoClubName;
    }

    /** `createClub`: `insert` stands for the data service's insert-and-select
        of one `clubs` row. An error is passed back (the source throws it)
        and leaves the active club as it was; otherwise the inserted club
        becomes the active one and its record is returned. */
    method CreateClub(name: string, insert: NewClub -> Result<ClubRecord, DbError>)
      returns (r: Result<ClubRecord, DbError>)
      modifies this
      ensures r == insert(NewClub(name, Slug(name)))
      ensures r.Failure? ==>
        activeClubId == old(activeClubId) && activeClubName == old(activeClubName)
      ensures r.Success? ==>
        activeClubId == r.value.id && activeClubName == r.value.name
    {
      var slug := Slug(name);
      r := insert(NewClub(name, slug));
      if r.Failure? {
        return;
      }
      activeClubId := r.value.id;
      activeClubName := r.value.name;
    }
  }
}
