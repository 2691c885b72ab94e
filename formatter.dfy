/** apis/v1/utils/formatter.py: the text of the CV-summary export, one row
    per CV, newest first. The extracted summary is taken in its structured
    shape: every text field a string, an absent key read as "" (or as [] for
    a list). */
module Formatter {
  import opened Wrappers
  import opened Strings

  // ---------------------------------------------------------------------
  // The summary shape

  datatype Education = Education(degree: string, major: string, institution: string, graduationYear: string)
  datatype Work = Work(jobTitle: string, companyName: string, startDate: string, endDate: string,
                       responsibilities: string)
  datatype Certification = Certification(name: string, organization: string, dateObtained: string)
  datatype Language = Language(language: string, proficiencyLevel: string)

  datatype Summary = Summary(
    fullName: string, email: string, phoneNumber: string, address: string, professionalSummary: string,
    education: seq<Education>, technicalSkills: seq<string>, workExperience: seq<Work>,
    softSkills: seq<string>, certifications: seq<Certification>, languages: seq<Language>)

  // ---------------------------------------------------------------------
  // Filtering and splitting

  /** `filter(None, parts)` on strings: the non-empty ones, in order. */
  function NonEmpty(parts: seq<string>): (r: seq<string>)
    ensures |r| <= |parts|
    ensures forall i :: 0 <= i < |r| ==> r[i] != "" && r[i] in parts
    decreases |parts|
  {
    if parts == [] then []
    else (if parts[0] == "" then [] else [parts[0]]) + NonEmpty(parts[1..])
  }

  /** Filtering keeps the order: it filters each half on its own. */
  lemma {:induction false} NonEmptyAppend(a: seq<string>, b: seq<string>)
    ensures NonEmpty(a + b) == NonEmpty(a) + NonEmpty(b)
    decreases |a|
  {
    if a != [] {
      assert (a + b)[0] == a[0] && (a + b)[1..] == a[1..] + b;
      NonEmptyAppend(a[1..], b);
      var head := if a[0] == "" then [] else [a[0]];
      calc {
        NonEmpty(a + b);
        head + NonEmpty(a[1..] + b);
        head + (NonEmpty(a[1..]) + NonEmpty(b));
        (head + NonEmpty(a[1..])) + NonEmpty(b);
      }
    } else {
      assert a + b == b;
    }
  }

  /** Filtering drops the empty strings and keeps every other one. */
  lemma {:induction false} NonEmptyKeeps(parts: seq<string>)
    ensures multiset(NonEmpty(parts)) == multiset(parts)[[] := 0]
    decreases |parts|
  {
    if parts != [] {
      NonEmptyKeeps(parts[1..]);
      assert parts == [parts[0]] + parts[1..];
    }
  }

  /** `" - ".join(filter(None, [a, b]))`, case by case. */
  lemma PairJoin(sep: string, a: string, b: string)
    ensures Join(sep, NonEmpty([a, b])) == if a == "" then b else if b == "" then a else a + sep + b
  {
    assert [a, b][1..] == [b];
  }

  /** `s.split(c)`. */
  function Split(s: string, c: char): (r: seq<string>)
    ensures r != []
    decreases |s|
  {
    if s == [] then [""]
    else
      var rest := Split(s[1..], c);
      if s[0] == c then [""] + rest else [[s[0]] + rest[0]] + rest[1..]
  }

  /** A piece without the separator splits into itself. */
  lemma {:induction false} SplitPiece(p: string, c: char, t: string)
    requires c !in p
    ensures Split(p + [c] + t, c) == [p] + Split(t, c)
    ensures Split(p, c) == [p]
    decreases |p|
  {
    if p != [] {
      assert (p + [c] + t)[1..] == p[1..] + [c] + t;
      SplitPiece(p[1..], c, t);
      assert [p[0]] + p[1..] == p;
    } else {
      assert p + [c] + t == [c] + t;
    }
  }

  /** Joining with a one-character separator and splitting on it gives back
      the parts, when no part holds the separator. */
  lemma {:induction false} SplitJoin(parts: seq<string>, c: char)
    requires parts != []
    requires forall i :: 0 <= i < |parts| ==> c !in parts[i]
    ensures Split(Join([c], parts), c) == parts
    decreases |parts|
  {
    if |parts| == 1 {
      SplitPiece(parts[0], c, "");
    } else {
      SplitJoin(parts[1..], c);
      SplitPiece(parts[0], c, Join([c], parts[1..]));
      assert parts[0] + [c] + Join([c], parts[1..]) == Join([c], parts);
    }
  }

  /** `p` in `Join(sep, parts)` does not hold `c` when no part and not `sep`
      does. */
  lemma {:induction false} JoinAvoids(sep: string, parts: seq<string>, c: char)
    requires c !in sep && forall i :: 0 <= i < |parts| ==> c !in parts[i]
    ensures c !in Join(sep, parts)
    decreases |parts|
  {
    if |parts| > 1 {
      JoinAvoids(sep, parts[1..], c);
    }
  }

  // ---------------------------------------------------------------------
  // The four formatters

  /** One line of `format_languages`. */
  function LanguageLine(l: Language): (r: string)
    ensures r == if l.language == "" then l.proficiencyLevel
                 else if l.proficiencyLevel == "" then l.language
                 else l.language + " - " + l.proficiencyLevel
  {
    PairJoin(" - ", l.language, l.proficiencyLevel);
    Join(" - ", NonEmpty([l.language, l.proficiencyLevel]))
  }

  /** `format_languages`: one line per entry. */
  function FormatLanguages(langs: seq<Language>): (r: string)
    ensures langs == [] ==> r == ""
  {
    Join("\n", seq(|langs|, i requires 0 <= i < |langs| => LanguageLine(langs[i])))
  }

  /** The text splits back into exactly one line per entry when no field
      holds a line break. */
  lemma LanguagesOneLineEach(langs: seq<Language>)
    requires langs != []
    requires forall i :: 0 <= i < |langs| ==> '\n' !in langs[i].language && '\n' !in langs[i].proficiencyLevel
    ensures var lines := Split(FormatLanguages(langs), '\n');
      |lines| == |langs| && forall i :: 0 <= i < |langs| ==> lines[i] == LanguageLine(langs[i])
  {
    var lines := seq(|langs|, i requires 0 <= i < |langs| => LanguageLine(langs[i]));
    SplitJoin(lines, '\n');
  }

  /** One line of `format_certifications`: the name and organisation, then
      the date in parentheses only when there is one. */
  function CertificationLine(c: Certification): (r: string)
    ensures c.dateObtained == "" ==> r == Join(" - ", NonEmpty([c.name, c.organization]))
    ensures c.dateObtained != "" ==> r == Join(" - ", NonEmpty([c.name, c.organization])) + " (" + c.dateObtained + ")"
  {
    Join(" - ", NonEmpty([c.name, c.organization])) + (if c.dateObtained != "" then " (" + c.dateObtained + ")" else "")
  }

  /** `format_certifications`: one line per entry. */
  function FormatCertifications(certs: seq<Certification>): (r: string)
    ensures certs == [] ==> r == ""
  {
    Join("\n", seq(|certs|, i requires 0 <= i < |certs| => CertificationLine(certs[i])))
  }

  /** The text splits back into one line per entry when no field holds a
      line break. */
  lemma CertificationsOneLineEach(certs: seq<Certification>)
    requires certs != []
    requires forall i :: 0 <= i < |certs| ==>
      '\n' !in certs[i].name && '\n' !in certs[i].organization && '\n' !in certs[i].dateObtained
    ensures var lines := Split(FormatCertifications(certs), '\n');
      |lines| == |certs| && forall i :: 0 <= i < |certs| ==> lines[i] == CertificationLine(certs[i])
  {
    var lines := seq(|certs|, i requires 0 <= i < |certs| => CertificationLine(certs[i]));
    assert " - " == [' ', '-', ' '];
    forall i | 0 <= i < |certs| ensures '\n' !in lines[i] {
      JoinAvoids(" - ", NonEmpty([certs[i].name, certs[i].organization]), '\n');
    }
    SplitJoin(lines, '\n');
  }

  /** The lines of one entry of `format_education`, before the empty ones are
      dropped. */
  function EducationParts(e: Education): seq<string> {
    [Join(" - ", NonEmpty([e.degree, e.major])), e.institution,
     if e.graduationYear != "" then "Graduation Year: " + e.graduationYear else ""]
  }

  /** One entry of `format_education`. */
  function EducationBlock(e: Education): string {
    Join("\n", NonEmpty(EducationParts(e)))
  }

  /** `format_education`: blocks separated by a blank line. */
  function FormatEducation(education: seq<Education>): (r: string)
    ensures education == [] ==> r == ""
  {
    Join("\n\n", seq(|education|, i requires 0 <= i < |education| => EducationBlock(education[i])))
  }

  /** An entry's block is its non-empty lines, in order; the year line is
      the last one when there is a year, and absent otherwise. */
  lemma EducationLines(e: Education)
    requires '\n' !in e.degree && '\n' !in e.major && '\n' !in e.institution && '\n' !in e.graduationYear
    requires NonEmpty(EducationParts(e)) != []
    ensures var lines := Split(EducationBlock(e), '\n');
      && lines == NonEmpty(EducationParts(e))
      && (forall k :: 0 <= k < |lines| ==> lines[k] != "")
      && (e.graduationYear == "" ==> |lines| <= 2)
      && (e.graduationYear != "" ==> lines[|lines| - 1] == "Graduation Year: " + e.graduationYear)
  {
    EducationPartsAvoid(e);
    SplitJoin(NonEmpty(EducationParts(e)), '\n');
    EducationKept(e);
  }

  /** No kept line of an entry holds a line break when no field does. */
  lemma EducationPartsAvoid(e: Education)
    requires '\n' !in e.degree && '\n' !in e.major && '\n' !in e.institution && '\n' !in e.graduationYear
    ensures var kept := NonEmpty(EducationParts(e));
      forall k :: 0 <= k < |kept| ==> '\n' !in kept[k]
  {
    var parts := EducationParts(e);
    assert " - " == [' ', '-', ' '];
    JoinAvoids(" - ", NonEmpty([e.degree, e.major]), '\n');
    assert '\n' !in parts[2] by {
      YearLineAvoids(e.graduationYear);
    }
  }

  /** The kept lines of an entry: at most two without a year, and the year
      line last with one. */
  lemma EducationKept(e: Education)
    ensures var kept := NonEmpty(EducationParts(e));
      && (e.graduationYear == "" ==> |kept| <= 2)
      && (e.graduationYear != "" ==> kept != [] && kept[|kept| - 1] == "Graduation Year: " + e.graduationYear)
  {
    var parts := EducationParts(e);
    NonEmptyAppend(parts[..2], [parts[2]]);
    assert parts == parts[..2] + [parts[2]];
    assert NonEmpty([parts[2]]) == if parts[2] == "" then [] else [parts[2]] by {
      assert [parts[2]][1..] == [];
    }
  }

  /** Groups of lines stacked with one blank line between neighbours. */
  function Stacked(groups: seq<seq<string>>): (r: seq<string>)
    requires groups != []
    ensures |r| == |groups| - 1 + Flattened(groups)
    decreases |groups|
  {
    if |groups| == 1 then groups[0] else groups[0] + [""] + Stacked(groups[1..])
  }

  /** How many lines the groups hold together. */
  function Flattened(groups: seq<seq<string>>): nat
    decreases |groups|
  {
    if groups == [] then 0 else |groups[0]| + Flattened(groups[1..])
  }

  /** `a + c + b` splits into the pieces of `a` followed by those of `b`. */
  lemma {:induction false} SplitConcat(a: string, b: string, c: char)
    ensures Split(a + [c] + b, c) == Split(a, c) + Split(b, c)
    decreases |a|
  {
    if a == [] {
      assert a + [c] + b == [c] + b;
      assert ([c] + b)[1..] == b;
    } else {
      assert (a + [c] + b)[1..] == a[1..] + [c] + b;
      SplitConcat(a[1..], b, c);
    }
  }

  /** The education text splits into each entry's lines, in order, with one
      blank line between entries, when no field holds a line break and every
      entry has a line. The entries' own lines are never blank, so the blank
      lines are exactly the separators. */
  lemma EducationBlocksSplit(education: seq<Education>)
    requires education != []
    requires forall i :: 0 <= i < |education| ==>
      && '\n' !in education[i].degree && '\n' !in education[i].major
      && '\n' !in education[i].institution && '\n' !in education[i].graduationYear
      && NonEmpty(EducationParts(education[i])) != []
    ensures Split(FormatEducation(education), '\n')
      == Stacked(seq(|education|, i requires 0 <= i < |education| => NonEmpty(EducationParts(education[i]))))
  {
    var blocks := seq(|education|, i requires 0 <= i < |education| => EducationBlock(education[i]));
    var groups := seq(|education|, i requires 0 <= i < |education| => NonEmpty(EducationParts(education[i])));
    forall i | 0 <= i < |education| ensures Split(blocks[i], '\n') == groups[i] {
      EducationLines(education[i]);
    }
    StackedSplit(blocks, groups, '\n');
  }

  /** Texts joined by a doubled separator split into their own pieces with
      one empty piece between neighbours. */
  lemma {:induction false} StackedSplit(texts: seq<string>, groups: seq<seq<string>>, c: char)
    requires texts != [] && |groups| == |texts|
    requires forall i :: 0 <= i < |texts| ==> Split(texts[i], c) == groups[i]
    ensures Split(Join([c, c], texts), c) == Stacked(groups)
    decreases |texts|
  {
    if |texts| > 1 {
      var rest := Join([c, c], texts[1..]);
      StackedSplit(texts[1..], groups[1..], c);
      assert Join([c, c], texts) == texts[0] + [c] + ([c] + rest);
      SplitConcat(texts[0], [c] + rest, c);
      assert ([c] + rest)[1..] == rest;
    }
  }

  /** The year line holds no line break when the year holds none. */
  lemma YearLineAvoids(year: string)
    requires '\n' !in year
    ensures '\n' !in (if year != "" then "Graduation Year: " + year else "")
  {
    var prefix := "Graduation Year: ";
    assert forall i :: 0 <= i < |prefix| ==> prefix[i] != '\n';
  }

  /** `"{JobTitle} at {CompanyName}".strip()`. */
  function JobLine(w: Work): string {
    Strip(w.jobTitle + " at " + w.companyName)
  }

  /** With neither title nor company the line is the bare word "at", which
      the filter keeps. */
  lemma JobLineWithoutTitle(w: Work)
    requires w.jobTitle == "" && w.companyName == ""
    ensures JobLine(w) == "at"
  {
    var sp: string := [' '];
    var at: string := ['a', 't'];
    var line := w.jobTitle + " at " + w.companyName;
    assert line == sp + (at + sp);
    assert ' ' in Whitespace && 'a' !in Whitespace && 't' !in Whitespace;
    LStripPrefix(sp, at + sp, Whitespace);
    assert LStrip(line, Whitespace) == at + sp;
    RStripSuffix(at, sp, Whitespace);
    assert Strip(line) == at;
  }

  /** The characters `str.strip("From to ")` removes. */
  const FromTo: set<char> := {'F', 'r', 'o', 'm', ' ', 't'}

  /** The duration line as written: `"From S to E".strip("From to ")`, a
      strip of the character SET, which also eats dates' own first and last
      characters when they are in the set. */
  function DurationAsWritten(startDate: string, endDate: string): string {
    StripChars("From " + startDate + " to " + endDate, FromTo)
  }

  /** An end date whose last character is "t" loses it. */
  lemma DurationAsWrittenEatsT(startDate: string, stem: string)
    requires startDate != "" && SafeDate(startDate)
    requires stem != [] && stem[|stem| - 1] !in FromTo
    ensures DurationAsWritten(startDate, stem + "t") == startDate + " to " + stem
  {
    assert "From " + startDate + " to " + (stem + "t") == "From " + (startDate + " to " + stem + "t");
    LStripPrefix("From ", startDate + " to " + stem + "t", FromTo);
    RStripSuffix(startDate + " to " + stem, "t", FromTo);
  }

  /** So the end date "Present" comes out as "Presen": the line is the
      dates joined by " to " with the end date's last letter cut, which is
      not the intended line. */
  lemma DurationAsWrittenTruncates(startDate: string, endDate: string)
    requires startDate == "2020" && endDate == "Present"
    ensures DurationAsWritten(startDate, endDate) == startDate + " to " + endDate[..6]
    ensures DurationAsWritten(startDate, endDate) != Duration(startDate, endDate)
  {
    var stem := endDate[..6];
    assert endDate == stem + [endDate[6]];
    assert SafeDate(startDate) && stem[5] == 'n' && endDate[6] == 't';
    DurationAsWrittenEatsT(startDate, stem);
    assert |Duration(startDate, endDate)| == 15;
  }

  /** Stripping a prefix made of stripped characters, up to a character that is
      kept. */
  lemma {:induction false} LStripPrefix(p: string, s: string, chars: set<char>)
    requires forall i :: 0 <= i < |p| ==> p[i] in chars
    requires s != [] && s[0] !in chars
    ensures LStrip(p + s, chars) == s
    decreases |p|
  {
    if p != [] {
      assert (p + s)[1..] == p[1..] + s;
      LStripPrefix(p[1..], s, chars);
    }
  }

  /** Stripping a suffix made of stripped characters, back to a character
      that is kept. */
  lemma {:induction false} RStripSuffix(s: string, p: string, chars: set<char>)
    requires forall i :: 0 <= i < |p| ==> p[i] in chars
    requires s != [] && s[|s| - 1] !in chars
    ensures RStrip(s + p, chars) == s
    decreases |p|
  {
    if p != [] {
      assert (s + p)[..|s + p| - 1] == s + p[..|p| - 1];
      RStripSuffix(s, p[..|p| - 1], chars);
    } else {
      assert s + p == s;
    }
  }

  /** A date is safe under the strip when it neither starts nor ends with a
      character of the set. */
  predicate SafeDate(d: string) {
    d == "" || (d[0] !in FromTo && d[|d| - 1] !in FromTo)
  }

  /** The duration line as intended: the two dates joined by " to ", only
      the date there is when one is missing, and nothing when both are. */
  function Duration(startDate: string, endDate: string): (r: string)
    ensures startDate == "" && endDate == "" ==> r == ""
    ensures startDate <= r && EndsWith(r, endDate)
  {
    if startDate == "" then endDate
    else if endDate == "" then startDate
    else startDate + " to " + endDate
  }

  /** On safe dates the strip as written yields the intended line. */
  lemma DurationAgrees(startDate: string, endDate: string)
    requires SafeDate(startDate) && SafeDate(endDate)
    ensures DurationAsWritten(startDate, endDate) == Duration(startDate, endDate)
  {
    if startDate == "" && endDate == "" {
      var s := "From " + startDate + " to " + endDate;
      assert forall i :: 0 <= i < |s| ==> s[i] in FromTo;
      AllStripped(s, FromTo);
    } else if startDate == "" {
      DurationOnlyEnd(endDate);
    } else if endDate == "" {
      DurationOnlyStart(startDate);
    } else {
      DurationBoth(startDate, endDate);
    }
  }

  /** Only the end date: the strip leaves it alone. */
  lemma DurationOnlyEnd(endDate: string)
    requires endDate != "" && SafeDate(endDate)
    ensures DurationAsWritten("", endDate) == endDate
  {
    assert "From " + "" + " to " + endDate == "From  to " + endDate;
    LStripPrefix("From  to ", endDate, FromTo);
    RStripSuffix(endDate, "", FromTo);
  }

  /** Only the start date: the strip leaves it alone. */
  lemma DurationOnlyStart(startDate: string)
    requires startDate != "" && SafeDate(startDate)
    ensures DurationAsWritten(startDate, "") == startDate
  {
    assert "From " + startDate + " to " + "" == "From " + (startDate + " to ");
    LStripPrefix("From ", startDate + " to ", FromTo);
    RStripSuffix(startDate, " to ", FromTo);
  }

  /** Both dates: only the leading "From " goes. */
  lemma DurationBoth(startDate: string, endDate: string)
    requires startDate != "" && SafeDate(startDate) && endDate != "" && SafeDate(endDate)
    ensures DurationAsWritten(startDate, endDate) == startDate + " to " + endDate
  {
    assert "From " + startDate + " to " + endDate == "From " + (startDate + " to " + endDate);
    LStripPrefix("From ", startDate + " to " + endDate, FromTo);
    RStripSuffix(startDate + " to " + endDate, "", FromTo);
  }

  /** A string made only of stripped characters strips to "". */
  lemma {:induction false} AllStripped(s: string, chars: set<char>)
    requires forall i :: 0 <= i < |s| ==> s[i] in chars
    ensures StripChars(s, chars) == ""
    decreases |s|
  {
    if s != [] {
      AllStripped(s[1..], chars);
    }
  }

  /** The lines of one entry of `format_work_experience`, before the empty
      ones are dropped; the duration line is the set strip as written. */
  function WorkParts(w: Work): seq<string> {
    [JobLine(w), DurationAsWritten(w.startDate, w.endDate), w.responsibilities]
  }

  /** One entry of `format_work_experience`. */
  function WorkBlock(w: Work): string {
    Join("\n", NonEmpty(WorkParts(w)))
  }

  /** `format_work_experience`: blocks separated by a blank line. */
  function FormatWorkExperience(work: seq<Work>): (r: string)
    ensures work == [] ==> r == ""
  {
    Join("\n\n", seq(|work|, i requires 0 <= i < |work| => WorkBlock(work[i])))
  }

  /** Without dates there is no duration line: the block is the job line and
      the responsibilities. */
  lemma WorkWithoutDates(w: Work)
    requires w.startDate == "" && w.endDate == ""
    ensures WorkBlock(w) == Join("\n", NonEmpty([JobLine(w), w.responsibilities]))
    ensures DurationAsWritten(w.startDate, w.endDate) == ""
  {
    DurationAgrees(w.startDate, w.endDate);
    var duration := DurationAsWritten(w.startDate, w.endDate);
    NonEmptyAppend([JobLine(w)], [duration, w.responsibilities]);
    NonEmptyAppend([JobLine(w)], [w.responsibilities]);
    assert WorkParts(w) == [JobLine(w)] + [duration, w.responsibilities];
    assert [JobLine(w), w.responsibilities] == [JobLine(w)] + [w.responsibilities];
  }

  /** Where the dates start and end outside the stripped set, the block
      holds the intended duration line. */
  lemma WorkBlockAgrees(w: Work)
    requires SafeDate(w.startDate) && SafeDate(w.endDate)
    ensures WorkParts(w) == [JobLine(w), Duration(w.startDate, w.endDate), w.responsibilities]
  {
    DurationAgrees(w.startDate, w.endDate);
  }

  /** An entry's block splits back into its non-empty lines, in order, when
      no field holds a line break. */
  lemma WorkLines(w: Work)
    requires '\n' !in w.jobTitle && '\n' !in w.companyName && '\n' !in w.responsibilities
    requires '\n' !in w.startDate && '\n' !in w.endDate
    requires NonEmpty(WorkParts(w)) != []
    ensures Split(WorkBlock(w), '\n') == NonEmpty(WorkParts(w))
  {
    WorkPartsAvoid(w);
    SplitJoin(NonEmpty(WorkParts(w)), '\n');
  }

  /** The work-experience text splits into each entry's lines, in order,
      with one blank line between entries, when no field holds a line break
      and every entry has a line. */
  lemma WorkBlocksSplit(work: seq<Work>)
    requires work != []
    requires forall i :: 0 <= i < |work| ==>
      && '\n' !in work[i].jobTitle && '\n' !in work[i].companyName && '\n' !in work[i].responsibilities
      && '\n' !in work[i].startDate && '\n' !in work[i].endDate
      && NonEmpty(WorkParts(work[i])) != []
    ensures Split(FormatWorkExperience(work), '\n')
      == Stacked(seq(|work|, i requires 0 <= i < |work| => NonEmpty(WorkParts(work[i]))))
  {
    var blocks := seq(|work|, i requires 0 <= i < |work| => WorkBlock(work[i]));
    var groups := seq(|work|, i requires 0 <= i < |work| => NonEmpty(WorkParts(work[i])));
    forall i | 0 <= i < |work| ensures Split(blocks[i], '\n') == groups[i] {
      WorkLines(work[i]);
    }
    StackedSplit(blocks, groups, '\n');
  }

  /** No kept line of an entry holds a line break when no field does. */
  lemma WorkPartsAvoid(w: Work)
    requires '\n' !in w.jobTitle && '\n' !in w.companyName && '\n' !in w.responsibilities
    requires '\n' !in w.startDate && '\n' !in w.endDate
    ensures var kept := NonEmpty(WorkParts(w));
      forall k :: 0 <= k < |kept| ==> '\n' !in kept[k]
  {
    var at := " at ";
    assert forall i :: 0 <= i < |at| ==> at[i] != '\n';
    StripCharsAvoids(w.jobTitle + at + w.companyName, Whitespace, '\n');
    var from, to := "From ", " to ";
    assert forall i :: 0 <= i < |from| ==> from[i] != '\n';
    assert forall i :: 0 <= i < |to| ==> to[i] != '\n';
    StripCharsAvoids(from + w.startDate + to + w.endDate, FromTo, '\n');
  }

  // ---------------------------------------------------------------------
  // The rows of the export

  /** A CV as the export receives it: its `upload_at` text and its summary. */
  datatype SummaryCv = SummaryCv(uploadAt: string, summary: Summary)

  /** The text columns of one row. */
  datatype RowText = RowText(
    name: string, email: string, phoneNumber: string, address: string, professionalSummary: string,
    education: string, technicalSkills: string, workExperience: string, softSkills: string,
    certifications: string, languages: string)

  /** One row of the export, before the `upload_at` column is dropped: its
      number and the CV whose columns it shows. */
  datatype Row = Row(id: int, cv: SummaryCv) {
    /** The `upload_at` column. */
    function UploadAt(): string {
      cv.uploadAt
    }

    /** The other columns. */
    function Text(): RowText {
      TextOf(cv.summary)
    }
  }

  /** The text columns of a summary: the personal fields as they are, the
      skill lists joined by ", ", the rest formatted. */
  function TextOf(s: Summary): RowText {
    RowText(s.fullName, s.email, s.phoneNumber, s.address, s.professionalSummary,
            FormatEducation(s.education), Join(", ", s.technicalSkills), FormatWorkExperience(s.workExperience),
            Join(", ", s.softSkills), FormatCertifications(s.certifications), FormatLanguages(s.languages))
  }

  /** `datetime.fromisoformat` as an instant, or None when the text does not
      parse; the parser itself is not part of this model. */
  type Clock = string -> Option<int>

  /** `sorted` with `key=` works on the CVs decorated with their keys. */
  type Keyed = (int, SummaryCv)

  /** Every CV carries the instant of its own `upload_at`. */
  predicate KeyedBy(ps: seq<Keyed>, at: Clock) {
    forall i :: 0 <= i < |ps| ==> at(ps[i].1.uploadAt) == Some(ps[i].0)
  }

  /** The keys, computed in list order before any comparison; the first
      `upload_at` that does not parse raises ValueError. */
  function Decorate(cvs: seq<SummaryCv>, at: Clock): (r: Result<seq<Keyed>>)
    ensures r.Ok? ==> |r.value| == |cvs| && KeyedBy(r.value, at)
    ensures r.Ok? ==> forall i :: 0 <= i < |cvs| ==> r.value[i].1 == cvs[i]
    ensures r.Err? <==> exists i :: 0 <= i < |cvs| && at(cvs[i].uploadAt).None?
    decreases |cvs|
  {
    if cvs == [] then Ok([])
    else
      assert forall i :: 1 <= i < |cvs| ==> cvs[i] == cvs[1..][i - 1];
      match at(cvs[0].uploadAt)
      case None => Err(ValueError("Invalid isoformat string: '" + cvs[0].uploadAt + "'"))
      case Some(t) =>
        var rest :- Decorate(cvs[1..], at);
        Ok([(t, cvs[0])] + rest)
  }

  /** Newest first. */
  predicate NewestFirst(ps: seq<Keyed>) {
    forall i, j :: 0 <= i < j < |ps| ==> ps[i].0 >= ps[j].0
  }

  /** `p` placed before the first CV that is not newer, so that of two CVs
      with the same instant the earlier one stays first. */
  function Insert(p: Keyed, ps: seq<Keyed>): (r: seq<Keyed>)
    ensures multiset(r) == multiset(ps) + multiset{p}
    decreases |ps|
  {
    if ps == [] || p.0 >= ps[0].0 then [p] + ps
    else
      assert ps == [ps[0]] + ps[1..];
      [ps[0]] + Insert(p, ps[1..])
  }

  /** Inserting into a list that is newest first keeps it so. */
  lemma {:induction false} InsertNewestFirst(p: Keyed, ps: seq<Keyed>)
    requires NewestFirst(ps)
    ensures NewestFirst(Insert(p, ps))
    decreases |ps|
  {
    if ps != [] && p.0 < ps[0].0 {
      var rest := Insert(p, ps[1..]);
      InsertNewestFirst(p, ps[1..]);
      forall k | 0 <= k < |rest| ensures ps[0].0 >= rest[k].0 {
        assert rest[k] in multiset(rest);
        if rest[k] != p {
          assert rest[k] in multiset(ps[1..]);
          var m :| 0 <= m < |ps[1..]| && ps[1..][m] == rest[k];
          assert ps[m + 1] == rest[k];
        }
      }
    }
  }

  /** `sorted(..., reverse=True)`: stable, newest first. */
  function SortNewestFirst(ps: seq<Keyed>): (r: seq<Keyed>)
    ensures multiset(r) == multiset(ps)
    decreases |ps|
  {
    if ps == [] then []
    else
      assert ps == [ps[0]] + ps[1..];
      Insert(ps[0], SortNewestFirst(ps[1..]))
  }

  /** The sort is newest first. */
  lemma {:induction false} SortIsNewestFirst(ps: seq<Keyed>)
    ensures NewestFirst(SortNewestFirst(ps))
    decreases |ps|
  {
    if ps != [] {
      SortIsNewestFirst(ps[1..]);
      InsertNewestFirst(ps[0], SortNewestFirst(ps[1..]));
    }
  }

  /** A permutation keeps every CV with its own key. */
  lemma PermutedKeyedBy(ps: seq<Keyed>, qs: seq<Keyed>, at: Clock)
    requires KeyedBy(ps, at) && multiset(qs) == multiset(ps)
    ensures KeyedBy(qs, at)
  {
    forall k | 0 <= k < |qs| ensures at(qs[k].1.uploadAt) == Some(qs[k].0) {
      assert qs[k] in multiset(ps);
      var m :| 0 <= m < |ps| && ps[m] == qs[k];
    }
  }

  /** The numbered rows of CVs already in order. */
  function Numbered(ps: seq<Keyed>): (rows: seq<Row>)
    ensures |rows| == |ps|
    decreases |ps|
  {
    if ps == [] then [] else Numbered(ps[..|ps| - 1]) + [Row(|ps|, ps[|ps| - 1].1)]
  }

  /** Row `k` is the row of the `k`-th CV, numbered `k + 1`. */
  lemma {:induction false} NumberedAt(ps: seq<Keyed>)
    ensures forall k :: 0 <= k < |ps| ==> Numbered(ps)[k] == Row(k + 1, ps[k].1)
    decreases |ps|
  {
    if ps != [] {
      NumberedAt(ps[..|ps| - 1]);
    }
  }

  /** One more row, numbered after the earlier ones. */
  lemma NumberedSnoc(ps: seq<Keyed>, i: nat)
    requires i < |ps|
    ensures Numbered(ps[..i + 1]) == Numbered(ps[..i]) + [Row(i + 1, ps[i].1)]
  {
    assert ps[..i + 1][..i] == ps[..i];
  }

  /** What `build_cv_summary_file` puts in `rows`. */
  function SummaryRows(cvs: seq<SummaryCv>, at: Clock): Result<seq<Row>> {
    var ps :- Decorate(cvs, at);
    Ok(Numbered(SortNewestFirst(ps)))
  }

  /** The export raises exactly when some `upload_at` does not parse; then it
      has one row per CV, numbered 1..n from the newest, and every CV's row is
      there. */
  lemma SummaryRowsOrdered(cvs: seq<SummaryCv>, at: Clock)
    ensures SummaryRows(cvs, at).Err? <==> exists i :: 0 <= i < |cvs| && at(cvs[i].uploadAt).None?
    ensures var r := SummaryRows(cvs, at);
      r.Ok? ==>
      && |r.value| == |cvs|
      && (forall k :: 0 <= k < |cvs| ==> r.value[k].id == k + 1 && at(r.value[k].UploadAt()).Some?)
      && (forall j, k :: 0 <= j < k < |cvs| ==> at(r.value[j].UploadAt()).value >= at(r.value[k].UploadAt()).value)
      && (forall i :: 0 <= i < |cvs| ==> exists k :: 0 <= k < |cvs| && r.value[k] == Row(k + 1, cvs[i]))
  {
    var d := Decorate(cvs, at);
    if d.Ok? {
      var sorted := SortNewestFirst(d.value);
      assert |sorted| == |multiset(sorted)| == |multiset(d.value)| == |cvs|;
      SortIsNewestFirst(d.value);
      PermutedKeyedBy(d.value, sorted, at);
      NumberedAt(sorted);
      forall i | 0 <= i < |cvs| {
        FindsCv(cvs, d.value, sorted, i);
      }
    }
  }

  /** The CV at `i` is somewhere in the sorted rows. */
  lemma FindsCv(cvs: seq<SummaryCv>, ps: seq<Keyed>, sorted: seq<Keyed>, i: nat)
    requires |ps| == |cvs| && i < |cvs| && ps[i].1 == cvs[i]
    requires multiset(sorted) == multiset(ps)
    ensures exists k :: 0 <= k < |sorted| && Numbered(sorted)[k] == Row(k + 1, cvs[i])
  {
    assert ps[i] in multiset(ps);
    assert ps[i] in sorted;
    var k :| 0 <= k < |sorted| && sorted[k] == ps[i];
    NumberedAt(sorted);
    assert Numbered(sorted)[k] == Row(k + 1, cvs[i]);
  }

  /** `build_cv_summary_file` up to the DataFrame: the keys, the sort, then
      the numbering loop. */
  method BuildCvSummaryRows(cvs: seq<SummaryCv>, at: Clock) returns (r: Result<seq<Row>>)
    ensures r == SummaryRows(cvs, at)
  {
    var ps := Decorate(cvs, at);
    if ps.Err? {
      return Err(ps.error);
    }
    var sorted := SortNewestFirst(ps.value);
    var rows: seq<Row> := [];
    var i := 0;
    while i < |sorted|
      invariant 0 <= i <= |sorted| && rows == Numbered(sorted[..i])
    {
      NumberedSnoc(sorted, i);
      rows := rows + [Row(i + 1, sorted[i].1)];
      i := i + 1;
    }
    assert sorted[..i] == sorted;
    r := Ok(rows);
  }
}
