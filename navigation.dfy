/**
 * The chat's query-to-section router (src/utils/navigation.ts): maps free
 * text to one of the page's section ids through a fixed, ordered keyword
 * table, with a fallback to `projects` for a few technology words.
 */
module Navigation {
  import opened Common
  import opened Text

  /** The keyword table, in the order in which it is scanned. */
  const SectionTable: seq<(string, seq<string>)> := [
    ("home", ["home", "top", "start", "beginning", "main"]),
    ("about", ["about", "about me", "who are you", "introduction", "bio", "background"]),
    ("projects", ["projects", "work", "portfolio", "showcase", "what did you build", "applications", "apps"]),
    ("skills", ["skills", "technologies", "tech stack", "programming languages", "frameworks", "tools",
                "expertise", "what can you do"]),
    ("experience", ["experience", "work history", "job history", "employment", "career", "companies",
                    "positions"]),
    ("education", ["education", "degrees", "academic", "university", "college", "school", "certifications",
                   "certificates", "qualifications"]),
    ("contact", ["contact", "get in touch", "reach out", "email", "message", "connect", "social media"])
  ]

  /** Words that send an otherwise unmatched query to `projects`. */
  const TechWords: seq<string> := ["react", "typescript", "next", "frontend", "web"]

  /** The table keys: `Object.keys(table).includes(id)`. */
  predicate IsKey(table: seq<(string, seq<string>)>, id: string) {
    exists k :: 0 <= k < |table| && table[k].0 == id
  }

  /** `id` is one of the page's section ids. */
  predicate IsSectionId(id: string) {
    IsKey(SectionTable, id)
  }

  /** Every entry lists its own key as its first keyword. */
  predicate SelfNamed(table: seq<(string, seq<string>)>) {
    forall k :: 0 <= k < |table| ==> |table[k].1| > 0 && table[k].1[0] == table[k].0
  }

  /** The section ids, in table order; each section lists its own id as its
      first keyword. */
  lemma SectionIds()
    ensures |SectionTable| == 7
    ensures forall k :: 0 <= k < |SectionTable| ==>
      SectionTable[k].0 == ["home", "about", "projects", "skills", "experience", "education", "contact"][k]
    ensures SelfNamed(SectionTable)
  {
  }

  lemma ProjectsIsASection()
    ensures IsSectionId("projects")
  {
    assert SectionTable[2].0 == "projects";
  }

  /** `query.toLowerCase().trim()`. */
  function Normalize(query: string): string {
    Trim(Lower(query))
  }

  /** A normalised query is its own lowercase form and its own trim. */
  lemma NormalizeIsNormal(query: string)
    ensures Lower(Normalize(query)) == Normalize(query)
    ensures Trim(Normalize(query)) == Normalize(query)
  {
    var l := Lower(query);
    LowerCommutesWithTrim(l);
    LowerIdempotent(query);
    TrimIdempotent(l);
  }

  /** The partial-match loop: the first entry of `table` with a keyword
      included in `q`. */
  function FirstMatch(table: seq<(string, seq<string>)>, q: string): (r: Option<string>)
    ensures r.Some? ==> IsKey(table, r.value)
  {
    if table == [] then None
    else if MentionsAny(q, table[0].1) then Some(table[0].0)
    else
      var r := FirstMatch(table[1..], q);
      assert forall k :: 0 <= k < |table| - 1 ==> table[1..][k] == table[k + 1];
      r
  }

  /** The body of `getSectionIdFromQuery` after normalisation, for any table
      and any list of words that fall back to `projects`. */
  function Route(table: seq<(string, seq<string>)>, fallback: seq<string>, q: string): (r: Option<string>)
    ensures r.Some? ==> IsKey(table, r.value) || r.value == "projects"
    ensures IsKey(table, q) ==> r == Some(q)
  {
    if IsKey(table, q) then Some(q)
    else
      var m := FirstMatch(table, q);
      if m.Some? then m
      else if MentionsAny(q, fallback) then Some("projects")
      else None
  }

  /** `getSectionIdFromQuery`. */
  function GetSectionIdFromQuery(query: string): (r: Option<string>)
    ensures r.Some? ==> IsSectionId(r.value)
    ensures IsSectionId(Normalize(query)) ==> r == Some(Normalize(query))
  {
    ProjectsIsASection();
    Route(SectionTable, TechWords, Normalize(query))
  }

  /** `navigateToSectionByQuery`, with the scroll abstracted: `hasElement`
      says whether the page has an element with a given id. The result is
      the success flag and the section scrolled to, if any. */
  function NavigateToSectionByQuery(query: string, hasElement: string -> bool): (r: (bool, Option<string>))
    ensures GetSectionIdFromQuery(query).None? ==> r == (false, None)
    ensures r.0 <==> r.1.Some?
    ensures r.1.Some? ==> GetSectionIdFromQuery(query) == r.1 && hasElement(r.1.value)
    ensures GetSectionIdFromQuery(query).Some? && hasElement(GetSectionIdFromQuery(query).value) ==> r.0
  {
    var sectionId := GetSectionIdFromQuery(query);
    if sectionId.Some? && hasElement(sectionId.value) then (true, sectionId) else (false, None)
  }

  lemma {:induction false} FirstMatchIsFirst(table: seq<(string, seq<string>)>, q: string, k: nat)
    requires k < |table|
    requires MentionsAny(q, table[k].1)
    requires forall j :: 0 <= j < k ==> !MentionsAny(q, table[j].1)
    ensures FirstMatch(table, q) == Some(table[k].0)
  {
    if k > 0 {
      assert !MentionsAny(q, table[0].1);
      FirstMatchIsFirst(table[1..], q, k - 1);
    }
  }

  lemma {:induction false} FirstMatchFound(table: seq<(string, seq<string>)>, q: string)
    ensures FirstMatch(table, q).Some? ==>
      exists k :: (0 <= k < |table| && table[k].0 == FirstMatch(table, q).value
                   && MentionsAny(q, table[k].1)
                   && forall j :: 0 <= j < k ==> !MentionsAny(q, table[j].1))
    ensures FirstMatch(table, q).None? <==> forall k :: 0 <= k < |table| ==> !MentionsAny(q, table[k].1)
  {
    if table != [] && !MentionsAny(q, table[0].1) {
      FirstMatchFound(table[1..], q);
      if FirstMatch(table, q).Some? {
        var k :| 0 <= k < |table| - 1 && table[1..][k].0 == FirstMatch(table, q).value
          && MentionsAny(q, table[1..][k].1)
          && forall j :: 0 <= j < k ==> !MentionsAny(q, table[1..][j].1);
        assert table[k + 1] == table[1..][k];
        forall j | 0 <= j < k + 1 ensures !MentionsAny(q, table[j].1) {
          if j > 0 {
            assert table[j] == table[1..][j - 1];
          }
        }
      }
      if FirstMatch(table, q).None? {
        forall k | 0 <= k < |table| ensures !MentionsAny(q, table[k].1) {
          if k > 0 {
            assert table[k] == table[1..][k - 1];
          }
        }
      }
    }
  }

  /** In a self-named table a bare key mentions its own entry, so the exact
      check only short-cuts the scan: no section matches exactly when no
      keyword and no fallback word occurs. */
  lemma RouteNoneIff(table: seq<(string, seq<string>)>, fallback: seq<string>, q: string)
    requires SelfNamed(table)
    ensures Route(table, fallback, q).None? <==>
      (forall k :: 0 <= k < |table| ==> !MentionsAny(q, table[k].1)) && !MentionsAny(q, fallback)
    ensures (forall k :: 0 <= k < |table| ==> !MentionsAny(q, table[k].1)) && MentionsAny(q, fallback)
      ==> Route(table, fallback, q) == Some("projects")
  {
    FirstMatchFound(table, q);
    if IsKey(table, q) {
      var k :| 0 <= k < |table| && table[k].0 == q;
      assert IsPrefix(q, q);
      assert Contains(q, table[k].1[0]);
      assert MentionsAny(q, table[k].1);
    }
  }

  /** A query that is not a bare section id goes to the first section, in
      table order, one of whose keywords it includes. */
  lemma FirstSectionInTableOrderWins(query: string, k: nat)
    requires k < |SectionTable|
    requires !IsSectionId(Normalize(query))
    requires MentionsAny(Normalize(query), SectionTable[k].1)
    requires forall j :: 0 <= j < k ==> !MentionsAny(Normalize(query), SectionTable[j].1)
    ensures GetSectionIdFromQuery(query) == Some(SectionTable[k].0)
  {
    FirstMatchIsFirst(SectionTable, Normalize(query), k);
  }

  /** Conversely, a section reached by the table scan has a keyword in the
      query, and no earlier section has one. */
  lemma ScanResultIsFirstMatch(query: string)
    requires !IsSectionId(Normalize(query))
    requires FirstMatch(SectionTable, Normalize(query)).Some?
    ensures GetSectionIdFromQuery(query).Some?
    ensures exists k :: (0 <= k < |SectionTable| && SectionTable[k].0 == GetSectionIdFromQuery(query).value
                         && MentionsAny(Normalize(query), SectionTable[k].1)
                         && forall j :: 0 <= j < k ==> !MentionsAny(Normalize(query), SectionTable[j].1))
  {
    FirstMatchFound(SectionTable, Normalize(query));
  }

  /** The technology words are consulted only when no table keyword matches. */
  lemma TechWordsFallBackToProjects(query: string)
    requires forall k :: 0 <= k < |SectionTable| ==> !MentionsAny(Normalize(query), SectionTable[k].1)
    requires MentionsAny(Normalize(query), TechWords)
    ensures GetSectionIdFromQuery(query) == Some("projects")
  {
    SectionIds();
    RouteNoneIff(SectionTable, TechWords, Normalize(query));
  }

  /** No section at all: exactly when neither a table keyword nor a
      technology word occurs in the normalised query. */
  lemma NoSectionIffNoKeyword(query: string)
    ensures GetSectionIdFromQuery(query).None? <==>
      (forall k :: 0 <= k < |SectionTable| ==> !MentionsAny(Normalize(query), SectionTable[k].1))
      && !MentionsAny(Normalize(query), TechWords)
  {
    SectionIds();
    RouteNoneIff(SectionTable, TechWords, Normalize(query));
  }

  /** Only the lowercased, trimmed query matters: routing the normalised
      form gives the same section. */
  lemma NormalizedQueryRoutesAlike(query: string)
    ensures GetSectionIdFromQuery(Normalize(query)) == GetSectionIdFromQuery(query)
  {
    var l := Lower(query);
    LowerCommutesWithTrim(l);
    LowerIdempotent(query);
    TrimIdempotent(l);
  }

  /** Case never changes the section. */
  lemma CaseDoesNotMatter(query: string)
    ensures GetSectionIdFromQuery(Upper(query)) == GetSectionIdFromQuery(query)
  {
    LowerOfUpper(query);
  }

  /** Surrounding whitespace never changes the section. */
  lemma SurroundingSpaceDoesNotMatter(ws1: string, query: string, ws2: string)
    requires AllSpace(ws1) && AllSpace(ws2)
    ensures GetSectionIdFromQuery(ws1 + query + ws2) == GetSectionIdFromQuery(query)
  {
    assert Lower(ws1 + query + ws2) == Lower(ws1) + Lower(query) + Lower(ws2);
    assert Lower(ws1) == ws1 && Lower(ws2) == ws2;
    TrimIgnoresSurroundingSpace(ws1, Lower(query), ws2);
  }

  /** "work history", in any case and with any surrounding whitespace, is
      routed to `projects`: `work` is a projects keyword, and projects comes
      before experience, whose keyword list holds "work history" itself. */
  lemma WorkHistoryGoesToProjects(query: string)
    requires Normalize(query) == "work history"
    ensures GetSectionIdFromQuery(query) == Some("projects")
  {
    var q := Normalize(query);
    WorkHistoryIsNotASection(q);
    WorkHistoryPassesEarlierSections(q);
    WorkHistoryMentionsWork(q);
    FirstSectionInTableOrderWins(query, 2);
  }

  lemma WorkHistoryPassesEarlierSections(q: string)
    requires q == "work history"
    ensures forall j :: 0 <= j < 2 ==> !MentionsAny(q, SectionTable[j].1)
  {
    WorkHistoryIsNotHome(q);
    WorkHistoryIsNotAbout(q);
  }

  lemma WorkHistoryIsNotASection(q: string)
    requires q == "work history"
    ensures !IsSectionId(q)
  {
    SectionIds();
    forall k | 0 <= k < |SectionTable| ensures |SectionTable[k].0| < |q| {
    }
  }

  lemma WorkHistoryMentionsWork(q: string)
    requires q == "work history"
    ensures MentionsAny(q, SectionTable[2].1) && SectionTable[2].0 == "projects"
  {
    assert SectionTable[2].1[1] == "work";
    assert IsPrefix(SectionTable[2].1[1], q);
    assert Contains(q, SectionTable[2].1[1]);
  }

  /** The example query is already in normal form. */
  lemma WorkHistoryIsNormalized()
    ensures Normalize("work history") == "work history"
  {
    var q := "work history";
    LowerOfLowercase(q);
    TrimOfUnpadded(q);
  }

  lemma WorkHistoryIsNotHome(q: string)
    requires q == "work history"
    ensures !MentionsAny(q, SectionTable[0].1)
  {
    var kws := SectionTable[0].1;
    forall i | 0 <= i < |kws| ensures !Contains(q, kws[i]) {
      if i == 0 { MissingCharNotContained(q, kws[i], 'm'); }       // home
      else if i == 1 { MissingCharNotContained(q, kws[i], 'p'); }  // top
      else if i == 2 { MissingCharNotContained(q, kws[i], 'a'); }  // start
      else if i == 3 { MissingCharNotContained(q, kws[i], 'b'); }  // beginning
      else { MissingCharNotContained(q, kws[i], 'm'); }            // main
    }
  }

  lemma WorkHistoryIsNotAbout(q: string)
    requires q == "work history"
    ensures !MentionsAny(q, SectionTable[1].1)
  {
    var kws := SectionTable[1].1;
    forall i | 0 <= i < |kws| ensures !Contains(q, kws[i]) {
      if i == 3 { MissingCharNotContained(q, kws[i], 'n'); }       // introduction
      else if i == 4 || i == 5 { MissingCharNotContained(q, kws[i], 'b'); }  // bio, background
      else { MissingCharNotContained(q, kws[i], 'a'); }            // about, about me, who are you
    }
  }

  /** A navigation that finds no section scrolls nowhere and reports failure. */
  lemma NoSectionNoScroll(query: string, hasElement: string -> bool)
    requires GetSectionIdFromQuery(query).None?
    ensures !NavigateToSectionByQuery(query, hasElement).0
    ensures NavigateToSectionByQuery(query, hasElement).1.None?
  {
  }
}
