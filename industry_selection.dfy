/** The industry/niche step: the static list of industries and their niches,
    the niche search, and the handlers that write `industry` and `niche` into
    the shared record or advance the funnel. */
module IndustrySelection {
  import opened Wrappers
  import opened AppShell

  datatype Industry = Industry(name: string, niches: seq<string>)

  /** `industries`, in display order. */
  const Industries: seq<Industry> := [
    Industry("Healthcare", ["General Practice", "Dental", "Mental Health", "Physical Therapy", "Veterinary"]),
    Industry("Real Estate", ["Residential Sales", "Commercial", "Property Management", "Real Estate Investment"]),
    Industry("Legal", ["Personal Injury", "Family Law", "Corporate Law", "Criminal Defense", "Immigration"]),
    Industry("Retail", ["E-commerce", "Fashion", "Electronics", "Home & Garden", "Automotive"]),
    Industry("Manufacturing", ["Food Processing", "Automotive Parts", "Electronics", "Textiles", "Pharmaceuticals"]),
    Industry("Professional Services", ["Accounting", "Consulting", "Marketing Agency", "IT Services", "Architecture"])
  ]

  /** `industries.find((ind) => ind.name === name)`: the first industry with
      that name, `undefined` (None) when there is none. */
  function FindIndustry(inds: seq<Industry>, name: string): (r: Option<Industry>)
    ensures r.Some? ==> exists i :: 0 <= i < |inds| && inds[i] == r.value && r.value.name == name &&
                          forall j :: 0 <= j < i ==> inds[j].name != name
    ensures r.None? <==> forall i :: 0 <= i < |inds| ==> inds[i].name != name
  {
    if inds == [] then None
    else if inds[0].name == name then Some(inds[0])
    else
      var r := FindIndustry(inds[1..], name);
      assert r.Some? ==> exists i :: 0 <= i < |inds| && inds[i] == r.value && r.value.name == name &&
                          forall j :: 0 <= j < i ==> inds[j].name != name by {
        if r.Some? {
          var i :| 0 <= i < |inds[1..]| && inds[1..][i] == r.value && r.value.name == name &&
                   forall j :: 0 <= j < i ==> inds[1..][j].name != name;
          assert inds[i + 1] == r.value;
          assert forall j :: 0 <= j < i + 1 ==> inds[j].name != name by {
            forall j | 0 <= j < i + 1 ensures inds[j].name != name {
              if j > 0 { assert inds[j] == inds[1..][j - 1]; }
            }
          }
        }
      }
      r
  }

  /** The niches offered for an industry, none for an unknown or empty one. */
  function NichesOf(industry: string): seq<string> {
    match FindIndustry(Industries, industry)
    case Some(ind) => ind.niches
    case None => []
  }

  /** No two listed industries share a name. */
  lemma NamesDistinct()
    ensures forall i, j :: 0 <= i < j < |Industries| ==> Industries[i].name != Industries[j].name
  {
  }

  /** The listed industries have distinct names, so each one's niches are
      the ones listed with it. */
  lemma NichesOfListed(k: nat)
    requires k < |Industries|
    ensures NichesOf(Industries[k].name) == Industries[k].niches
  {
    NamesDistinct();
    var r := FindIndustry(Industries, Industries[k].name);
    var i :| 0 <= i < |Industries| && Industries[i] == r.value && r.value.name == Industries[k].name &&
             forall j :: 0 <= j < i ==> Industries[j].name != Industries[k].name;
    assert i == k;
  }

  /** ASCII `toLowerCase` of one character. */
  function LowerChar(c: char): char {
    if 'A' <= c <= 'Z' then (c as int + 32) as char else c
  }

  /** ASCII `toLowerCase`. */
  function ToLower(s: string): (r: string)
    ensures |r| == |s|
    ensures forall i :: 0 <= i < |s| ==> r[i] == LowerChar(s[i])
  {
    if s == [] then [] else [LowerChar(s[0])] + ToLower(s[1..])
  }

  /** `t` occurs in `s` starting at position `i`. */
  predicate OccursAt(s: string, t: string, i: int) {
    0 <= i <= |s| - |t| && s[i..i + |t|] == t
  }

  /** `s.includes(t)`: `t` occurs in `s` at some position. */
  predicate Includes(s: string, t: string) {
    exists i | 0 <= i <= |s| - |t| :: OccursAt(s, t, i)
  }

  /** The search filter applied to one niche. */
  predicate NicheMatches(niche: string, searchTerm: string) {
    Includes(ToLower(niche), ToLower(searchTerm))
  }

  /** `niches.filter((niche) => niche.toLowerCase().includes(searchTerm.toLowerCase()))`. */
  function FilterNiches(niches: seq<string>, searchTerm: string): seq<string> {
    if niches == [] then []
    else if NicheMatches(niches[0], searchTerm) then [niches[0]] + FilterNiches(niches[1..], searchTerm)
    else FilterNiches(niches[1..], searchTerm)
  }

  /** `filteredNiches`: the selected industry's niches that match the search,
      `[]` when no industry with that name exists. */
  function FilteredNiches(industry: string, searchTerm: string): seq<string> {
    match FindIndustry(Industries, industry)
    case Some(ind) => FilterNiches(ind.niches, searchTerm)
    case None => []
  }

  /** `a` is `b` with some elements left out, the rest in their order. */
  ghost predicate IsSubsequence(a: seq<string>, b: seq<string>)
    decreases |b|
  {
    if a == [] then true
    else if b == [] then false
    else (a[0] == b[0] && IsSubsequence(a[1..], b[1..])) || IsSubsequence(a, b[1..])
  }

  /** The filter keeps exactly the matching niches, in their order. */
  lemma {:induction false} FilterNichesSpec(niches: seq<string>, searchTerm: string)
    ensures IsSubsequence(FilterNiches(niches, searchTerm), niches)
    ensures forall n :: n in FilterNiches(niches, searchTerm) <==> n in niches && NicheMatches(n, searchTerm)
  {
    if niches != [] {
      FilterNichesSpec(niches[1..], searchTerm);
      assert niches == [niches[0]] + niches[1..];
      var r := FilterNiches(niches, searchTerm);
      if !NicheMatches(niches[0], searchTerm) {
        var rest := FilterNiches(niches[1..], searchTerm);
        assert r == rest;
        if rest != [] {
          assert IsSubsequence(r, niches[1..]);
        }
      }
    }
  }

  /** Every text contains the empty text. */
  lemma IncludesEmpty(s: string)
    ensures Includes(s, "")
  {
    assert OccursAt(s, "", 0);
  }

  /** An empty search keeps every niche. */
  lemma {:induction false} EmptySearchKeepsAll(niches: seq<string>)
    ensures FilterNiches(niches, "") == niches
  {
    if niches != [] {
      IncludesEmpty(ToLower(niches[0]));
      assert ToLower("") == "";
      EmptySearchKeepsAll(niches[1..]);
    }
  }

  /** The search lists the chosen industry's niches filtered, all of them for an
      empty search, and none when the industry is empty or unknown. */
  lemma FilteredNichesSpec(industry: string, searchTerm: string)
    ensures IsSubsequence(FilteredNiches(industry, searchTerm), NichesOf(industry))
    ensures forall n :: n in FilteredNiches(industry, searchTerm) <==>
                        n in NichesOf(industry) && NicheMatches(n, searchTerm)
    ensures FilteredNiches(industry, "") == NichesOf(industry)
    ensures (forall i :: 0 <= i < |Industries| ==> Industries[i].name != industry) ==>
              FilteredNiches(industry, searchTerm) == []
    ensures FilteredNiches("", searchTerm) == []
  {
    FilterNichesSpec(NichesOf(industry), searchTerm);
    EmptySearchKeepsAll(NichesOf(industry));
    assert FindIndustry(Industries, "") == None;
  }

  /** The Continue button is shown, and `handleNext` acts, when both an
      industry and a niche are set. */
  predicate CanContinue(d: BusinessData) {
    d.industry != "" && d.niche != ""
  }

  /** Clicking an industry: `onUpdate({ industry: name, niche: "" })`. */
  method SelectIndustry(shell: Shell, name: string)
    requires shell.Valid()
    modifies shell
    ensures shell.Valid() && shell.step == old(shell.step)
    ensures shell.data == old(shell.data).(industry := name, niche := "")
  {
    shell.Update(NoChange.(industry := Some(name), niche := Some("")));
  }

  /** "Change Industry": `onUpdate({ industry: "", niche: "" })`. */
  method ChangeIndustry(shell: Shell)
    requires shell.Valid()
    modifies shell
    ensures shell.Valid() && shell.step == old(shell.step)
    ensures shell.data == old(shell.data).(industry := "", niche := "")
  {
    shell.Update(NoChange.(industry := Some(""), niche := Some("")));
  }

  /** Clicking a niche: `onUpdate({ niche })`. */
  method SelectNiche(shell: Shell, niche: string)
    requires shell.Valid()
    modifies shell
    ensures shell.Valid() && shell.step == old(shell.step)
    ensures shell.data == old(shell.data).(niche := niche)
  {
    shell.Update(NoChange.(niche := Some(niche)));
  }

  /** `handleNext`: advance only when both industry and niche are set. */
  method HandleNext(shell: Shell)
    requires shell.Valid()
    modifies shell
    ensures shell.Valid() && shell.data == old(shell.data)
    ensures shell.step == if CanContinue(old(shell.data)) then NextStep(old(shell.step)) else old(shell.step)
  {
    if CanContinue(shell.data) {
      shell.Next();
    }
  }
}
