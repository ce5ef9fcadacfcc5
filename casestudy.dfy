/** The client-case modal of js/index.js: each `.case-btn` carries a review
    and a case text; opening a case parses the case text into its three
    sections (task, solution, result), and the arrows step through the
    cases, wrapping at both ends. */
module CaseStudy {
  import opened Text

  const Placeholder: string := "Кейс в разработке"
  /** The HTML-entity form of a blank line, and the blank line itself. */
  const EntitySep: string := "&#10;&#10;"
  const BlankLine: string := "\n\n"

  datatype CaseFields = CaseFields(task: string, solution: string, result: string)

  /** `p.substring(p.indexOf(":") + 1)`: the text after the first colon, or
      all of `p` when it has none (indexOf gives -1, so substring(0)). */
  function AfterColon(p: string): (r: string)
    ensures |r| <= |p| && r == p[|p| - |r|..]
    ensures !Contains(p, ":") ==> r == p
    ensures Contains(p, ":") ==> |r| < |p| && p[|p| - |r| - 1] == ':' && !Contains(p[..|p| - |r| - 1], ":")
  {
    match IndexOf(p, ":")
    case None => p
    case Some(i) =>
      PrefixHasNoEarlierMatch(p, ":", i);
      p[i + 1..]
  }

  /** The parts `openModal` splits a case text into: on the entity form when
      the text holds one, on blank lines otherwise. */
  function CaseParts(fullCase: string): (parts: seq<string>)
    ensures |parts| >= 1
  {
    if Contains(fullCase, EntitySep) then Split(fullCase, EntitySep) else Split(fullCase, BlankLine)
  }

  /** The end of the last line feed in `s[p..q]`, if there is one. */
  function LastNewlineEnd(s: string, p: nat, q: nat): (e: Option<nat>)
    requires p <= q <= |s|
    ensures e.Some? ==> p < e.value <= q && s[e.value - 1] == '\n'
    ensures e.Some? ==> forall k :: e.value <= k < q ==> s[k] != '\n'
    ensures e.None? ==> forall k :: p <= k < q ==> s[k] != '\n'
    decreases q
  {
    if q == p then None
    else if s[q - 1] == '\n' then Some(q)
    else LastNewlineEnd(s, p, q - 1)
  }

  /** The end of the run of white space starting at `p`. */
  function SpaceRunEnd(s: string, p: nat): (q: nat)
    requires p <= |s|
    ensures p <= q <= |s| && (q < |s| ==> !IsSpace(s[q]))
    ensures forall k :: p <= k < q ==> IsSpace(s[k])
    decreases |s| - p
  {
    if p < |s| && IsSpace(s[p]) then SpaceRunEnd(s, p + 1) else p
  }

  /** A match of the regular expression `(?<=:)\s*\n` at position `q`: it
      needs a colon just before `q`, and the greedy `\s*` followed by `\n`
      ends after the last line feed of the white-space run starting at `q`
      (`\s` is the same character set as `trim` removes). */
  function AltMatch(s: string, q: nat): (e: Option<nat>)
    requires q <= |s|
    ensures e.Some? ==> 0 < q < e.value <= |s| && s[q - 1] == ':' && s[e.value - 1] == '\n'
    ensures e.Some? ==> forall k :: q <= k < e.value ==> IsSpace(s[k])
    ensures e.None? <==> (q == 0 || s[q - 1] != ':' || forall k :: q <= k < SpaceRunEnd(s, q) ==> s[k] != '\n')
    ensures e.Some? ==> e.value <= SpaceRunEnd(s, q) && forall k :: e.value <= k < SpaceRunEnd(s, q) ==> s[k] != '\n'
  {
    if 0 < q && s[q - 1] == ':' then LastNewlineEnd(s, q, SpaceRunEnd(s, q)) else None
  }

  /** `s.split(/(?<=:)\s*\n/)` from segment start `p`, trying a match at every
      position `q` from the left, as the regular-expression split algorithm
      does (section 22.2.6.14 of ECMA-262). */
  function AltSplitFrom(s: string, p: nat, q: nat): (parts: seq<string>)
    requires p <= q <= |s|
    ensures |parts| >= 1
    decreases |s| - q
  {
    if q == |s| then [s[p..]]
    else match AltMatch(s, q)
      case None => AltSplitFrom(s, p, q + 1)
      case Some(e) => [s[p..q]] + AltSplitFrom(s, e, e)
  }

  /** The fallback split `openModal` tries when the case text has fewer than
      three parts. */
  function AltSplit(s: string): (parts: seq<string>)
    ensures |parts| >= 1
  {
    AltSplitFrom(s, 0, 0)
  }

  /** Every part of the fallback split but the last is non-empty and ends
      with the colon the look-behind saw: a segment starts at the text's
      start or after a line feed, so no match can sit at its very start. */
  lemma {:induction false} AltPartsEndInColon(s: string, p: nat, q: nat)
    requires p <= q <= |s|
    requires p == 0 || s[p - 1] == '\n'
    ensures ColonEnded(AltSplitFrom(s, p, q))
    decreases |s| - q
  {
    if q < |s| {
      match AltMatch(s, q)
      case None =>
        AltPartsEndInColon(s, p, q + 1);
      case Some(e) =>
        AltPartsEndInColon(s, e, e);
        assert p < q;
        var rest := AltSplitFrom(s, e, e);
        assert AltSplitFrom(s, p, q) == [s[p..q]] + rest;
    }
  }

  /** Every part but the last is non-empty and ends with a colon. */
  predicate ColonEnded(parts: seq<string>) {
    forall k :: 0 <= k < |parts| - 1 ==> parts[k] != "" && parts[k][|parts[k]| - 1] == ':'
  }

  /** What `openModal` writes into the three section fields for a case text:
      the placeholder for a missing or empty text, the sections found by one
      of the two splits, or `None` when neither split finds three parts and
      the fields keep what they showed before. */
  function CaseContent(fullCase: Option<string>): Option<CaseFields> {
    if !Truthy(fullCase) then Some(CaseFields(Placeholder, Placeholder, Placeholder))
    else
      var parts := CaseParts(fullCase.value);
      if |parts| >= 3 then Some(FromParts(parts))
      else
        var alt := AltSplit(fullCase.value);
        if |alt| >= 3 then Some(FromAltParts(alt)) else None
  }

  /** The sections from the first split: each part after its first colon,
      trimmed. */
  function FromParts(parts: seq<string>): CaseFields
    requires |parts| >= 3
  {
    CaseFields(Trim(AfterColon(parts[0])), Trim(AfterColon(parts[1])), Trim(AfterColon(parts[2])))
  }

  /** The sections from the fallback split: only the first part is cut at
      its first colon; the other two are only trimmed. */
  function FromAltParts(alt: seq<string>): CaseFields
    requires |alt| >= 3
  {
    CaseFields(Trim(AfterColon(alt[0])), Trim(alt[1]), Trim(alt[2]))
  }

  /** The section fields after opening a case whose text yields `c`. */
  function NextFields(c: Option<CaseFields>, before: CaseFields): CaseFields {
    if c.Some? then c.value else before
  }

  /** A missing or empty case text shows the placeholder in all three
      sections; a non-empty one leaves the fields as they were exactly when
      neither split yields three parts. */
  lemma PlaceholderRule(fullCase: Option<string>)
    ensures !Truthy(fullCase) ==> CaseContent(fullCase) == Some(CaseFields(Placeholder, Placeholder, Placeholder))
    ensures Truthy(fullCase) ==>
      (CaseContent(fullCase).None? <==> |CaseParts(fullCase.value)| < 3 && |AltSplit(fullCase.value)| < 3)
  {
  }

  /** One section of a case text as an author writes it: a heading, a
      colon and a space, then the section's text. */
  datatype Section = Section(heading: string, text: string)

  function SectionText(sec: Section): string {
    sec.heading + ": " + sec.text
  }

  /** The heading has no colon and the text no white space at either end. */
  predicate WellFormed(sec: Section) {
    && !Contains(sec.heading, ":")
    && (sec.text != [] ==> !IsSpace(sec.text[0]) && !IsSpace(sec.text[|sec.text| - 1]))
  }

  /** A well-formed section reads back as its text. */
  lemma SectionReadsBack(sec: Section)
    requires WellFormed(sec)
    ensures Trim(AfterColon(SectionText(sec))) == sec.text
  {
    var p := SectionText(sec);
    FirstColonEndsHeading(sec.heading, sec.text);
    assert p[|sec.heading| + 1..] == [' '] + sec.text;
    TrimSkipsSpace(' ', sec.text);
    TrimOfTrimmed(sec.text);
  }

  /** The first colon of `heading: text` is the one after a colon-free
      heading. */
  lemma FirstColonEndsHeading(h: string, t: string)
    requires !Contains(h, ":")
    ensures IndexOf(h + ": " + t, ":") == Some(|h|)
  {
    var p := h + ": " + t;
    assert OccursAt(p, ":", |h|) by {
      assert p[|h|..|h| + 1] == ":";
    }
    forall j | 0 <= j < |h| ensures !OccursAt(p, ":", j) {
      assert !OccursAt(h, ":", j);
      assert h[j..j + 1] == [h[j]];
      assert p[j..j + 1] == [p[j]];
      assert p[j] == h[j];
    }
  }

  /** A case text written as three well-formed sections separated by blank
      lines (either form) opens with exactly those three texts. */
  lemma CaseRoundTrip(sep: string, task: Section, solution: Section, result: Section)
    requires WellFormed(task) && WellFormed(solution) && WellFormed(result)
    requires sep == EntitySep || sep == BlankLine
    requires EndsCleanly(SectionText(task), sep) && EndsCleanly(SectionText(solution), sep)
    requires !Contains(SectionText(result), sep)
    requires sep == BlankLine ==> !Contains(Join([SectionText(task), SectionText(solution), SectionText(result)], sep), EntitySep)
    ensures CaseContent(Some(Join([SectionText(task), SectionText(solution), SectionText(result)], sep)))
      == Some(CaseFields(task.text, solution.text, result.text))
  {
    var parts := [SectionText(task), SectionText(solution), SectionText(result)];
    JoinedSections(sep, parts);
    ContentOfParts(Join(parts, sep));
    SectionReadsBack(task);
    SectionReadsBack(solution);
    SectionReadsBack(result);
  }

  /** A non-empty case text with at least three parts fills the fields from
      its first three parts. */
  lemma ContentOfParts(s: string)
    requires s != "" && |CaseParts(s)| >= 3
    ensures CaseContent(Some(s)) == Some(FromParts(CaseParts(s)))
  {
  }

  /** Three sections joined by either separator split back into the same
      three parts, and the joined text is not empty. */
  lemma JoinedSections(sep: string, parts: seq<string>)
    requires |parts| == 3 && parts[0] != ""
    requires sep == EntitySep || sep == BlankLine
    requires EndsCleanly(parts[0], sep) && EndsCleanly(parts[1], sep) && !Contains(parts[2], sep)
    requires sep == BlankLine ==> !Contains(Join(parts, sep), EntitySep)
    ensures Join(parts, sep) != "" && CaseParts(Join(parts, sep)) == parts
  {
    var s := Join(parts, sep);
    SplitJoin(parts, sep);
    assert s == parts[0] + sep + Join(parts[1..], sep);
    if sep == EntitySep {
      assert OccursAt(s, sep, |parts[0]|) by {
        assert s[|parts[0]|..|parts[0]| + |sep|] == sep;
      }
    }
  }

  /** On the fallback path every split part but the last ends at the colon
      the look-behind matched. So when the first part's only colon is that
      last one, the task section comes out empty, and the solution section
      holds the next section's heading with its colon. */
  lemma AltTaskIsEmpty(s: string)
    requires |CaseParts(s)| < 3 && |AltSplit(s)| >= 3
    requires forall j :: 0 <= j < |AltSplit(s)[0]| - 1 ==> AltSplit(s)[0][j] != ':'
    ensures s != "" && CaseContent(Some(s)).Some? && CaseContent(Some(s)).value.task == ""
    ensures Contains(AltSplit(s)[1], ":")
  {
    var alt := AltSplit(s);
    AltPartsEndInColon(s, 0, 0);
    AltSplitEmpty();
    ContentOfAltParts(s);
    OnlyFinalColon(alt[0]);
    ColonIsContained(alt[1]);
  }

  /** The empty text splits into one empty part. */
  lemma AltSplitEmpty()
    ensures AltSplit("") == [""]
  {
    assert AltSplitFrom("", 0, 0) == [""[0..]];
  }

  /** A non-empty case text whose first split has fewer than three parts
      and whose fallback split has at least three fills the fields from the
      fallback parts. */
  lemma ContentOfAltParts(s: string)
    requires s != "" && |CaseParts(s)| < 3 && |AltSplit(s)| >= 3
    ensures CaseContent(Some(s)) == Some(FromAltParts(AltSplit(s)))
  {
  }

  /** Nothing follows the first colon of a text whose only colon ends it. */
  lemma OnlyFinalColon(a: string)
    requires a != "" && a[|a| - 1] == ':'
    requires forall j :: 0 <= j < |a| - 1 ==> a[j] != ':'
    ensures AfterColon(a) == ""
  {
    assert OccursAt(a, ":", |a| - 1) by {
      assert a[|a| - 1..|a|] == ":";
    }
    forall j | 0 <= j < |a| - 1 ensures !OccursAt(a, ":", j) {
      assert a[j..j + 1] == [a[j]];
    }
    assert IndexOf(a, ":") == Some(|a| - 1);
  }

  /** A string ending in a colon contains one. */
  lemma ColonIsContained(p: string)
    requires p != "" && p[|p| - 1] == ':'
    ensures Contains(p, ":")
  {
    assert OccursAt(p, ":", |p| - 1) by {
      assert p[|p| - 1..|p|] == ":";
    }
  }

  /** `openCaseByIndex`: an index before the first case goes to the last,
      one past the last goes to the first. */
  function WrapCase(index: int, count: nat): (r: int)
    requires count > 0
  {
    var i := if index < 0 then count - 1 else index;
    if i >= count then 0 else i
  }

  /** Wrapping lands on a case; an index already on a case is kept; and the
      prev and next arrows undo each other. */
  lemma WrapCaseRule(index: int, count: nat)
    requires count > 0
    ensures 0 <= WrapCase(index, count) < count
    ensures 0 <= index < count ==> WrapCase(index, count) == index
    ensures index < 0 ==> WrapCase(index, count) == count - 1
    ensures index >= count ==> WrapCase(index, count) == 0
    ensures 0 <= index < count ==> WrapCase(WrapCase(index - 1, count) + 1, count) == index
    ensures 0 <= index < count ==> WrapCase(WrapCase(index + 1, count) - 1, count) == index
  {
  }

  /** One `.case-btn`: its `data-review` and `data-case` attributes. */
  datatype CaseButton = CaseButton(review: Option<string>, caseText: Option<string>)

  class CaseModal {
    const buttons: seq<CaseButton>
    var current: int
    var review: string
    var fields: CaseFields
    var shown: bool

    ghost predicate Valid()
      reads this
    {
      -1 <= current < |buttons|
    }

    /** The page after loading: no case opened yet (`currentCaseIndex = -1`),
        the modal hidden, and the fields as the page markup has them. */
    constructor(buttons: seq<CaseButton>, review: string, fields: CaseFields)
      ensures Valid() && this.buttons == buttons && current == -1 && !shown
      ensures this.review == review && this.fields == fields
    {
      this.buttons := buttons;
      current := -1;
      this.review := review;
      this.fields := fields;
      shown := false;
    }

    /** The review text `openModal` shows: a missing one shows as empty. */
    static function ReviewText(r: Option<string>): string {
      if r.Some? then r.value else ""
    }

    /** Case `i` is open: it is the current case, the modal is shown with
        its review, and the fields hold what its case text yields (or what
        they held before). */
    ghost predicate Shows(i: int, before: CaseFields)
      reads this
    {
      && 0 <= i < |buttons| && current == i && shown
      && review == ReviewText(buttons[i].review)
      && fields == NextFields(CaseContent(buttons[i].caseText), before)
    }

    /** `openModal`: show the review (a missing one shows as empty text),
        fill the sections the case text yields, and show the modal. */
    method OpenModal(fullReview: Option<string>, fullCase: Option<string>)
      modifies this`review, this`fields, this`shown
      ensures review == ReviewText(fullReview)
      ensures fields == NextFields(CaseContent(fullCase), old(fields))
      ensures shown
    {
      review := ReviewText(fullReview);
      FillSections(fullCase);
      shown := true;
    }

    /** The section-filling part of `openModal`. */
    method FillSections(fullCase: Option<string>)
      modifies this`fields
      ensures fields == NextFields(CaseContent(fullCase), old(fields))
    {
      if Truthy(fullCase) {
        var parts := CaseParts(fullCase.value);
        if |parts| >= 3 {
          ContentOfParts(fullCase.value);
          fields := FromParts(parts);
        } else {
          var alt := AltSplit(fullCase.value);
          if |alt| >= 3 {
            ContentOfAltParts(fullCase.value);
            fields := FromAltParts(alt);
          } else {
            PlaceholderRule(fullCase);
          }
        }
      } else {
        PlaceholderRule(fullCase);
        fields := CaseFields(Placeholder, Placeholder, Placeholder);
      }
    }

    /** A click on case button i opens that case. */
    method ClickCase(i: nat)
      requires Valid() && i < |buttons|
      modifies this`current, this`review, this`fields, this`shown
      ensures Valid() && Shows(i, old(fields))
    {
      current := i;
      OpenModal(buttons[i].review, buttons[i].caseText);
    }

    /** `openCaseByIndex`: nothing without case buttons; otherwise open the
        case at the wrapped index. */
    method OpenCaseByIndex(index: int)
      requires Valid()
      modifies this`current, this`review, this`fields, this`shown
      ensures Valid()
      ensures |buttons| == 0 ==> current == old(current) && review == old(review) && fields == old(fields) && shown == old(shown)
      ensures |buttons| > 0 ==> Shows(WrapCase(index, |buttons|), old(fields))
    {
      if |buttons| == 0 {
        return;
      }
      var i := index;
      if i < 0 {
        i := |buttons| - 1;
      }
      if i >= |buttons| {
        i := 0;
      }
      current := i;
      OpenModal(buttons[current].review, buttons[current].caseText);
    }

    /** The previous-case arrow. */
    method Prev()
      requires Valid()
      modifies this`current, this`review, this`fields, this`shown
      ensures Valid()
      ensures |buttons| == 0 ==> current == old(current) && review == old(review) && fields == old(fields) && shown == old(shown)
      ensures |buttons| > 0 ==> Shows(WrapCase(old(current) - 1, |buttons|), old(fields))
    {
      OpenCaseByIndex(current - 1);
    }

    /** The next-case arrow. */
    method Next()
      requires Valid()
      modifies this`current, this`review, this`fields, this`shown
      ensures Valid()
      ensures |buttons| == 0 ==> current == old(current) && review == old(review) && fields == old(fields) && shown == old(shown)
      ensures |buttons| > 0 ==> Shows(WrapCase(old(current) + 1, |buttons|), old(fields))
    {
      OpenCaseByIndex(current + 1);
    }

    /** `closeModal`, from the close button or a click on the backdrop. */
    method Close()
      modifies this`shown
      ensures !shown
    {
      shown := false;
    }

    /** The Escape key closes a shown modal and does nothing else. */
    method KeyDown(key: string)
      modifies this`shown
      ensures shown == (old(shown) && key != "Escape")
    {
      if key == "Escape" && shown {
        Close();
      }
    }
  }
}
