/**
 * The pure derivations inside the synthetic position-description and CV
 * generator: which content the generated documents carry, as a sequence of
 * blocks, before any document styling or file conversion.
 */
module FakeData {
  import opened Wrappers
  import opened PyStr
  import opened PyValue

  /** One piece of generated document content. */
  datatype Block =
    | Heading(text: string, level: nat)
    | Paragraph(text: string)
    | Bullet(text: string)
    | BoldParagraph(text: string)
    | Labelled(caption: string, text: string)
    | Centered(text: string)

  /** `isinstance(v, str) and v.strip()`. */
  predicate NonBlankStr(v: Value) {
    v.Str? && !Blank(v.s)
  }

  // ---------------------------------------------------------------------------
  // File identifier of a position description

  /** The file identifier: the stripped position number with spaces turned
      into underscores, or a fresh uuid (an opaque input here) when the
      position number is not a non-blank string. */
  function PdIdentifier(positionNumber: Value, freshUuid: string): (id: string)
    ensures NonBlankStr(positionNumber) ==>
      && id != []
      && ' ' !in id
      && Unpadded(id)
      && |id| == |Strip(positionNumber.s)|
      && forall i :: 0 <= i < |id| ==>
           id[i] == (if Strip(positionNumber.s)[i] == ' ' then '_' else Strip(positionNumber.s)[i])
    ensures !NonBlankStr(positionNumber) ==> id == freshUuid
  {
    if NonBlankStr(positionNumber) then
      var t := Strip(positionNumber.s);
      var id := ReplaceSpaces(t);
      assert id[0] == t[0] && id[|id| - 1] == t[|t| - 1];
      id
    else freshUuid
  }

  /** The identifier depends on the position number only through its
      stripped form. */
  lemma PdIdentifierViaStrip(s: string, t: string, freshUuid: string)
    requires Strip(s) == Strip(t)
    ensures PdIdentifier(Str(s), freshUuid) == PdIdentifier(Str(t), freshUuid)
  {
  }

  /** Whitespace around a position number does not change its identifier. */
  lemma PdIdentifierIgnoresPadding(p: string, x: string, q: string, freshUuid: string)
    requires Blank(p) && Blank(q) && Unpadded(x)
    ensures PdIdentifier(Str(p + x + q), freshUuid) == PdIdentifier(Str(x), freshUuid)
  {
    StripUnique(p, x, q);
    StripUnpadded(x);
    PdIdentifierViaStrip(p + x + q, x, freshUuid);
  }

  // ---------------------------------------------------------------------------
  // Filtering list items

  /** `[item for item in items if isinstance(item, str) and item.strip()]`. */
  function NonBlankStrings(items: seq<Value>): (r: seq<string>)
    ensures |r| <= |items|
    ensures forall i :: 0 <= i < |r| ==> !Blank(r[i])
  {
    if items == [] then []
    else (if NonBlankStr(items[0]) then [items[0].s] else []) + NonBlankStrings(items[1..])
  }

  /** The filter distributes over concatenation: it keeps order. */
  lemma {:induction false} NonBlankStringsAppend(a: seq<Value>, b: seq<Value>)
    ensures NonBlankStrings(a + b) == NonBlankStrings(a) + NonBlankStrings(b)
  {
    if a == [] {
      assert a + b == b;
    } else {
      assert (a + b)[1..] == a[1..] + b;
      NonBlankStringsAppend(a[1..], b);
    }
  }

  /** The filter keeps exactly the non-blank strings. */
  lemma {:induction false} NonBlankStringsMembers(items: seq<Value>, x: string)
    ensures x in NonBlankStrings(items) <==> Str(x) in items && !Blank(x)
  {
    if items != [] {
      NonBlankStringsMembers(items[1..], x);
      assert items == [items[0]] + items[1..];
    }
  }

  /** The filter is empty exactly when no item is a non-blank string. */
  lemma {:induction false} NonBlankStringsEmpty(items: seq<Value>)
    ensures NonBlankStrings(items) == [] <==> forall i :: 0 <= i < |items| ==> !NonBlankStr(items[i])
  {
    if items != [] {
      NonBlankStringsEmpty(items[1..]);
      assert forall i :: 1 <= i < |items| ==> items[i] == items[1..][i - 1];
    }
  }

  /** `[s.strip() for s in xs]`. */
  function StripAll(xs: seq<string>): (r: seq<string>)
    ensures |r| == |xs|
    ensures forall i :: 0 <= i < |xs| ==> r[i] == Strip(xs[i])
  {
    seq(|xs|, i requires 0 <= i < |xs| => Strip(xs[i]))
  }

  /** One list-bullet paragraph per item. */
  function Bullets(xs: seq<string>): (r: seq<Block>)
    ensures |r| == |xs|
    ensures forall i :: 0 <= i < |xs| ==> r[i] == Bullet(xs[i])
  {
    seq(|xs|, i requires 0 <= i < |xs| => Bullet(xs[i]))
  }

  // ---------------------------------------------------------------------------
  // Key responsibilities of a position description

  /** The kept responsibilities: the non-blank string items, stripped. */
  function Responsibilities(v: Value): (kept: seq<string>)
    ensures forall i :: 0 <= i < |kept| ==> kept[i] != [] && Unpadded(kept[i])
  {
    if v.List? && v.items != [] then StripAll(NonBlankStrings(v.items)) else []
  }

  /** The "Key Responsibilities" section: a heading followed by one bullet per
      kept item, emitted only when some item is a non-blank string. */
  function ResponsibilityBlocks(v: Value): (r: seq<Block>)
    ensures r != [] <==> v.List? && exists i :: 0 <= i < |v.items| && NonBlankStr(v.items[i])
    ensures r != [] ==> r == [Heading("Key Responsibilities", 2)] + Bullets(Responsibilities(v))
  {
    var kept := Responsibilities(v);
    if !v.List? then []
    else
      NonBlankStringsEmpty(v.items);
      if kept != [] then [Heading("Key Responsibilities", 2)] + Bullets(kept) else []
  }

  /** A kept responsibility is exactly the stripped form of a non-blank string
      item of the list. */
  lemma ResponsibilitiesMembers(items: seq<Value>, x: string)
    ensures x in Responsibilities(List(items))
      <==> exists y :: Str(y) in items && !Blank(y) && x == Strip(y)
  {
    var raw := NonBlankStrings(items);
    var kept := Responsibilities(List(items));
    if x in kept {
      var i :| 0 <= i < |kept| && kept[i] == x;
      NonBlankStringsMembers(items, raw[i]);
    }
    if y :| Str(y) in items && !Blank(y) && x == Strip(y) {
      NonBlankStringsMembers(items, y);
      var i :| 0 <= i < |raw| && raw[i] == y;
      assert kept[i] == x;
    }
  }

  // ---------------------------------------------------------------------------
  // Qualifications of a position description

  /** The qualification labels, in the order they are emitted. */
  const QualFields: seq<string> := ["Education", "Experience", "Certifications"]

  /** `xs` occurs in `ys` in order, possibly with gaps. */
  predicate IsSubsequence<T(==)>(xs: seq<T>, ys: seq<T>)
    decreases |ys|
  {
    if xs == [] then true
    else if ys == [] then false
    else (xs[0] == ys[0] && IsSubsequence(xs[1..], ys[1..])) || IsSubsequence(xs, ys[1..])
  }

  /** The labels of a list of (label, text) pairs. */
  function Labels(pairs: seq<(string, string)>): (r: seq<string>)
    ensures |r| == |pairs|
  {
    if pairs == [] then [] else [pairs[0].0] + Labels(pairs[1..])
  }

  /** The text of a collected pair is the stripped non-blank string stored
      under the lowercase form of its label. */
  predicate QualText(d: seq<(string, Value)>, pair: (string, string)) {
    var v := Get(d, Lower(pair.0));
    NonBlankStr(v) && pair.1 == Strip(v.s)
  }

  /** For each field, `(field, value.strip())` when `d.get(field.lower())` is a
      non-blank string. */
  function QualContent(fields: seq<string>, d: seq<(string, Value)>): (r: seq<(string, string)>)
    ensures |r| <= |fields|
    ensures forall i :: 0 <= i < |r| ==> r[i].1 != [] && Unpadded(r[i].1)
    ensures forall i :: 0 <= i < |r| ==> QualText(d, r[i])
  {
    if fields == [] then []
    else
      var v := Get(d, Lower(fields[0]));
      var rest := QualContent(fields[1..], d);
      if NonBlankStr(v) then [(fields[0], Strip(v.s))] + rest else rest
  }

  /** The collected labels keep the order of the field list. */
  lemma {:induction false} QualContentOrdered(fields: seq<string>, d: seq<(string, Value)>)
    ensures IsSubsequence(Labels(QualContent(fields, d)), fields)
  {
    if fields != [] {
      var r := QualContent(fields, d);
      var rest := QualContent(fields[1..], d);
      QualContentOrdered(fields[1..], d);
      if r != rest {
        assert Labels(r) == [fields[0]] + Labels(rest);
        assert Labels(r)[1..] == Labels(rest);
      }
    }
  }

  /** Every collected label is one of the fields. */
  lemma {:induction false} QualContentLabelsIn(fields: seq<string>, d: seq<(string, Value)>, f: string)
    requires f in Labels(QualContent(fields, d))
    ensures f in fields
  {
    var r := QualContent(fields, d);
    var rest := QualContent(fields[1..], d);
    if r != rest {
      assert Labels(r) == [fields[0]] + Labels(rest);
    }
    if f != fields[0] {
      QualContentLabelsIn(fields[1..], d, f);
    }
  }

  /** Nothing is collected exactly when no field holds a non-blank string. */
  lemma {:induction false} QualContentEmpty(fields: seq<string>, d: seq<(string, Value)>)
    ensures QualContent(fields, d) == [] <==>
      forall i :: 0 <= i < |fields| ==> !NonBlankStr(Get(d, Lower(fields[i])))
  {
    if fields != [] {
      QualContentEmpty(fields[1..], d);
      assert forall i :: 1 <= i < |fields| ==> fields[i] == fields[1..][i - 1];
    }
  }

  /** A field contributes a pair exactly when its lowercase key holds a
      non-blank string. */
  lemma {:induction false} QualContentHasField(fields: seq<string>, d: seq<(string, Value)>, f: string)
    requires f in fields
    ensures f in Labels(QualContent(fields, d)) <==> NonBlankStr(Get(d, Lower(f)))
  {
    var r := QualContent(fields, d);
    var rest := QualContent(fields[1..], d);
    if f in fields[1..] {
      QualContentHasField(fields[1..], d, f);
    } else if f in Labels(rest) {
      QualContentLabelsIn(fields[1..], d, f);
    }
    if r != rest {
      assert Labels(r) == [fields[0]] + Labels(rest);
    }
  }

  /** One paragraph per pair, with the label in bold before the text. */
  function LabelledBlocks(pairs: seq<(string, string)>): (r: seq<Block>)
    ensures |r| == |pairs|
    ensures forall i :: 0 <= i < |pairs| ==> r[i] == Labelled(pairs[i].0, pairs[i].1)
  {
    seq(|pairs|, i requires 0 <= i < |pairs| => Labelled(pairs[i].0, pairs[i].1))
  }

  /** The "Qualifications & Experience" section for a dict: one labelled
      paragraph per present field after the heading, and nothing when no
      field is present. */
  function QualDictBlocks(d: seq<(string, Value)>): (r: seq<Block>)
    ensures r != [] <==> exists i :: 0 <= i < |QualFields| && NonBlankStr(Get(d, Lower(QualFields[i])))
    ensures r != [] ==>
      var content := QualContent(QualFields, d);
      && |r| == |content| + 1
      && r[0] == Heading("Qualifications & Experience", 2)
      && forall i :: 0 <= i < |content| ==> r[i + 1] == Labelled(content[i].0, content[i].1)
  {
    var content := QualContent(QualFields, d);
    QualContentEmpty(QualFields, d);
    if content != [] then
      var labelled := LabelledBlocks(content);
      var r := [Heading("Qualifications & Experience", 2)] + labelled;
      assert forall i :: 0 <= i < |labelled| ==> r[i + 1] == labelled[i];
      r
    else []
  }

  /** The "Qualifications & Experience" section: the dict case above; a string
      is emitted as it is, stripped, even when blank; any other value gives
      nothing. */
  function QualBlocks(v: Value): (r: seq<Block>)
    ensures v.Dict? ==> r == QualDictBlocks(v.entries)
    ensures v.Str? ==> r == [Heading("Qualifications & Experience", 2), Paragraph(Strip(v.s))]
    ensures !v.Dict? && !v.Str? ==> r == []
  {
    match v
    case Dict(d) => QualDictBlocks(d)
    case Str(q) => [Heading("Qualifications & Experience", 2), Paragraph(Strip(q))]
    case _ => []
  }

  /** The qualification fields are looked up under their lowercase names. */
  lemma QualKeys()
    ensures Lower(QualFields[0]) == "education"
    ensures Lower(QualFields[1]) == "experience"
    ensures Lower(QualFields[2]) == "certifications"
  {
  }

  // ---------------------------------------------------------------------------
  // Skills of a position description

  /** `isinstance(v, list) and any(isinstance(s, str) and s.strip() for s in v)`. */
  predicate ValidSkillList(v: Value)
    ensures ValidSkillList(v) <==> v.List? && NonBlankStrings(v.items) != []
  {
    if v.List? then
      NonBlankStringsEmpty(v.items);
      exists i :: 0 <= i < |v.items| && NonBlankStr(v.items[i])
    else false
  }

  /** One bold sub-heading and the stripped non-blank skills, for a valid list;
      nothing for an invalid one. */
  function SkillGroup(title: string, v: Value): (r: seq<Block>)
    ensures r != [] <==> ValidSkillList(v)
    ensures r != [] ==>
      var kept := NonBlankStrings(v.items);
      && |r| == |kept| + 1
      && r[0] == BoldParagraph(title)
      && forall i :: 0 <= i < |kept| ==> r[i + 1] == Bullet(Strip(kept[i]))
  {
    if ValidSkillList(v) then
      var bullets := Bullets(StripAll(NonBlankStrings(v.items)));
      var r := [BoldParagraph(title)] + bullets;
      assert forall i :: 0 <= i < |bullets| ==> r[i + 1] == bullets[i];
      r
    else []
  }

  /** The "Skills" section of a position description. */
  function SkillsBlocks(v: Value): (r: seq<Block>)
    ensures v.Dict? ==>
      (r != [] <==> ValidSkillList(Get(v.entries, "hard_skills")) || ValidSkillList(Get(v.entries, "soft_skills")))
    ensures v.Dict? && r != [] ==>
      r == [Heading("Skills", 2)] + SkillGroup("Hard Skills", Get(v.entries, "hard_skills"))
        + SkillGroup("Soft Skills", Get(v.entries, "soft_skills"))
    ensures v.Str? ==> r == [Heading("Skills", 2), Paragraph(Strip(v.s))]
    ensures !v.Dict? && !v.Str? ==> r == []
  {
    match v
    case Dict(d) =>
      var hard := Get(d, "hard_skills");
      var soft := Get(d, "soft_skills");
      if ValidSkillList(hard) || ValidSkillList(soft) then
        [Heading("Skills", 2)] + SkillGroup("Hard Skills", hard) + SkillGroup("Soft Skills", soft)
      else []
    case Str(s) => [Heading("Skills", 2), Paragraph(Strip(s))]
    case _ => []
  }

  // ---------------------------------------------------------------------------
  // Contact line of a CV

  /** The personal-info keys joined into the contact line, in order. */
  const ContactKeys: seq<string> := ["email", "phone", "linkedin", "github", "website", "address"]

  /** `personal_info.get(k)` for each contact key. */
  function ContactItems(info: seq<(string, Value)>): (r: seq<Value>)
    ensures |r| == |ContactKeys|
    ensures forall i :: 0 <= i < |ContactKeys| ==> r[i] == Get(info, ContactKeys[i])
  {
    seq(|ContactKeys|, i requires 0 <= i < |ContactKeys| => Get(info, ContactKeys[i]))
  }

  /** The non-blank contact strings, as given (not stripped), joined by " | ". */
  function ContactLine(info: seq<(string, Value)>): (line: string)
    ensures line == [] <==> forall i :: 0 <= i < |ContactKeys| ==> !NonBlankStr(Get(info, ContactKeys[i]))
  {
    var kept := NonBlankStrings(ContactItems(info));
    NonBlankStringsEmpty(ContactItems(info));
    JoinEmptyIff(" | ", kept);
    Join(" | ", kept)
  }

  /** The centred contact paragraph, present only when the line is not empty. */
  function ContactBlocks(info: seq<(string, Value)>): (r: seq<Block>)
    ensures r != [] <==> exists i :: 0 <= i < |ContactKeys| && NonBlankStr(Get(info, ContactKeys[i]))
    ensures r != [] ==> r == [Centered(ContactLine(info))]
  {
    if ContactLine(info) != "" then [Centered(ContactLine(info))] else []
  }

  /** The contact line is built from exactly the non-blank contact strings,
      unchanged (not stripped). */
  lemma ContactLineMembers(info: seq<(string, Value)>, x: string)
    ensures x in NonBlankStrings(ContactItems(info)) <==>
      !Blank(x) && exists i :: 0 <= i < |ContactKeys| && Get(info, ContactKeys[i]) == Str(x)
  {
    var items := ContactItems(info);
    NonBlankStringsMembers(items, x);
    if Str(x) in items {
      var i :| 0 <= i < |items| && items[i] == Str(x);
      assert Get(info, ContactKeys[i]) == Str(x);
    }
  }

  /** One " | " between neighbouring contact strings and nothing else. */
  lemma ContactLineLength(info: seq<(string, Value)>)
    ensures var kept := NonBlankStrings(ContactItems(info));
      kept != [] ==> |ContactLine(info)| == TotalLength(kept) + 3 * (|kept| - 1)
  {
    var kept := NonBlankStrings(ContactItems(info));
    if kept != [] {
      BarJoinLength(kept);
    }
  }

  /** Joining with " | " adds three characters per separator. */
  lemma BarJoinLength(kept: seq<string>)
    requires kept != []
    ensures |Join(" | ", kept)| == TotalLength(kept) + 3 * (|kept| - 1)
  {
    JoinLength(" | ", kept);
  }

  // ---------------------------------------------------------------------------
  // Technologies of a CV project

  /** `[t for t in xs if isinstance(t, str)]`: every string item, blank or not. */
  function StringItems(xs: seq<Value>): (r: seq<string>)
    ensures |r| <= |xs|
    ensures forall x :: x in r <==> Str(x) in xs
  {
    if xs == [] then []
    else (if xs[0].Str? then [xs[0].s] else []) + StringItems(xs[1..])
  }

  /** The filter distributes over concatenation, so the string items keep
      their order and multiplicity. */
  lemma {:induction false} StringItemsAppend(a: seq<Value>, b: seq<Value>)
    ensures StringItems(a + b) == StringItems(a) + StringItems(b)
  {
    if a != [] {
      assert (a + b)[1..] == a[1..] + b;
      StringItemsAppend(a[1..], b);
    } else {
      assert a + b == b;
    }
  }

  /** A list of strings is kept whole. */
  lemma {:induction false} StringItemsOfStrings(xs: seq<string>)
    ensures StringItems(seq(|xs|, i requires 0 <= i < |xs| => Str(xs[i]))) == xs
  {
    if xs != [] {
      var vs := seq(|xs|, i requires 0 <= i < |xs| => Str(xs[i]));
      assert vs[1..] == seq(|xs[1..]|, i requires 0 <= i < |xs[1..]| => Str(xs[1..][i]));
      StringItemsOfStrings(xs[1..]);
    }
  }

  /** The "Technologies:" paragraph of a project. It is emitted when the
      project's `technologies` value is truthy; iterating a value that is not
      iterable raises `TypeError`. */
  function TechnologiesBlocks(project: seq<(string, Value)>): (r: Result<seq<Block>, PyError>)
    ensures !Truthy(Get(project, "technologies")) ==> r == Success([])
    ensures r.Failure? <==> Truthy(Get(project, "technologies")) && Iterate(Get(project, "technologies")).None?
    ensures r.Success? && r.value != [] ==> |r.value| == 1 && r.value[0].Paragraph?
    ensures r.Success? && Truthy(Get(project, "technologies")) ==>
      |r.value| == 1 && r.value[0].Paragraph? && "Technologies: " <= r.value[0].text
  {
    var tech := Get(project, "technologies");
    if !Truthy(tech) then Success([])
    else
      match Iterate(tech)
      case None => Failure(TypeError("object is not iterable"))
      case Some(xs) => Success([Paragraph("Technologies: " + Join(", ", StringItems(xs)))])
  }

  /** A list of technologies yields its string items joined by ", ". */
  lemma TechnologiesOfList(project: seq<(string, Value)>)
    requires Get(project, "technologies").List? && Get(project, "technologies").items != []
    ensures TechnologiesBlocks(project)
      == Success([Paragraph("Technologies: " + Join(", ", StringItems(Get(project, "technologies").items)))])
  {
  }

  /** The one-character strings of `s`, as iterating a Python `str` yields them. */
  function Chars(s: string): (r: seq<string>)
    ensures |r| == |s|
    ensures forall i :: 0 <= i < |s| ==> r[i] == [s[i]]
  {
    seq(|s|, i requires 0 <= i < |s| => [s[i]])
  }

  /** A plain string of technologies is iterated character by character:
      the paragraph joins its one-character strings with ", ". */
  lemma TechnologiesOfString(project: seq<(string, Value)>, s: string)
    requires Get(project, "technologies") == Str(s) && s != []
    ensures TechnologiesBlocks(project) == Success([Paragraph("Technologies: " + Join(", ", Chars(s)))])
  {
    var it := Iterate(Str(s)).value;
    var cs := Chars(s);
    assert it == seq(|cs|, i requires 0 <= i < |cs| => Str(cs[i])) by {
      forall i | 0 <= i < |s| ensures it[i] == Str(cs[i]) { }
    }
    StringItemsOfStrings(cs);
    assert Truthy(Str(s)) by {
      assert Str(s) != Str("");
    }
  }

  /** For instance, "Go" gives "Technologies: G, o". */
  lemma TechnologiesOfGo()
    ensures TechnologiesBlocks([("technologies", Str("Go"))]) == Success([Paragraph("Technologies: G, o")])
  {
    var project := [("technologies", Str("Go"))];
    assert Get(project, "technologies") == Str("Go");
    TechnologiesOfString(project, "Go");
    assert Chars("Go") == ["G", "o"];
    assert "Technologies: " + "G, o" == "Technologies: G, o";
    assert Join(", ", ["G", "o"]) == "G, o" by {
      assert ["G", "o"][1..] == ["o"];
    }
  }

  // ---------------------------------------------------------------------------
  // Demographic profile

  const AtsiOptions: seq<string> := [
    "Yes, Aboriginal",
    "Yes, Torres Strait Islander",
    "Yes, both Aboriginal and Torres Strait Islander",
    "No",
    "Prefer not to say"]
  const DisabilityOptions: seq<string> := ["Yes", "No", "Prefer not to say"]
  const AgeOptions: seq<string> := [
    "Under 18", "18-24", "25-34", "35-44", "45-54", "55-64", "65+", "Prefer not to say"]
  const GenderOptions: seq<string> := [
    "Woman", "Man", "Non-binary", "I use a different term", "Prefer not to say"]
  const LgbtqiaOptions: seq<string> := ["Yes", "No", "Prefer not to say"]
  const CarerOptions: seq<string> := ["Yes", "No", "Prefer not to say"]
  const LanguageOptions: seq<string> := ["Yes", "No", "Prefer not to say"]

  /** The option list of each randomly chosen field, in key order. */
  const OptionLists: seq<seq<string>> := [
    AtsiOptions, DisabilityOptions, AgeOptions, GenderOptions,
    LgbtqiaOptions, CarerOptions, LanguageOptions]

  /** The profile's keys, in insertion order. */
  const ProfileKeys: seq<string> := [
    "position_number", "application_id", "atsi_identity", "disability_status",
    "age_range", "gender_identity", "lgbtqia_community", "carer_responsibilities",
    "speaks_language_other_than_english"]

  /** `random.choice(options)` driven by an opaque draw `k`. */
  function Choice(options: seq<string>, k: nat): (c: string)
    requires options != []
    ensures c in options
  {
    options[k % |options|]
  }

  /** Every option can be drawn. */
  lemma ChoiceCovers(options: seq<string>, c: string)
    requires c in options
    ensures exists k: nat :: Choice(options, k) == c
  {
    var k :| 0 <= k < |options| && options[k] == c;
    assert Choice(options, k) == c;
  }

  /** `generate_demographic_profiles`, with one opaque draw per random field. */
  function DemographicProfile(positionNumber: string, applicationId: string, draws: seq<nat>): (profile: seq<(string, string)>)
    ensures |profile| == |ProfileKeys|
    ensures forall i :: 0 <= i < |ProfileKeys| ==> profile[i].0 == ProfileKeys[i]
    ensures profile[0].1 == positionNumber && profile[1].1 == applicationId
    ensures forall i :: 2 <= i < |ProfileKeys| ==> profile[i].1 in OptionLists[i - 2]
  {
    [(ProfileKeys[0], positionNumber), (ProfileKeys[1], applicationId)]
      + seq(|OptionLists|, i requires 0 <= i < |OptionLists| =>
              (ProfileKeys[i + 2], Choice(OptionLists[i], if i < |draws| then draws[i] else 0)))
  }

  /** The nine profile keys are distinct. */
  lemma ProfileKeysDistinct()
    ensures forall i, j :: 0 <= i < j < |ProfileKeys| ==> ProfileKeys[i] != ProfileKeys[j]
  {
  }

  /** Every combination of options is a possible profile. */
  lemma ProfileReachable(positionNumber: string, applicationId: string, values: seq<string>)
    requires |values| == |OptionLists|
    requires forall i :: 0 <= i < |values| ==> values[i] in OptionLists[i]
    ensures exists draws: seq<nat> ::
      DemographicProfile(positionNumber, applicationId, draws)
        == [(ProfileKeys[0], positionNumber), (ProfileKeys[1], applicationId)]
           + seq(|values|, i requires 0 <= i < |values| => (ProfileKeys[i + 2], values[i]))
  {
    var draws := seq(|values|, i requires 0 <= i < |values| => IndexOf(OptionLists[i], values[i]));
    var p := DemographicProfile(positionNumber, applicationId, draws);
    var want := [(ProfileKeys[0], positionNumber), (ProfileKeys[1], applicationId)]
      + seq(|values|, i requires 0 <= i < |values| => (ProfileKeys[i + 2], values[i]));
    forall i | 2 <= i < |ProfileKeys| ensures p[i] == want[i] {
      ChoiceOfIndex(OptionLists[i - 2], draws[i - 2]);
    }
    assert p == want;
  }

  /** A draw within range picks the option at that position. */
  lemma ChoiceOfIndex(options: seq<string>, k: nat)
    requires k < |options|
    ensures Choice(options, k) == options[k]
  {
  }

  /** The position of `x` in `xs`. */
  function IndexOf(xs: seq<string>, x: string): (k: nat)
    requires x in xs
    ensures k < |xs| && xs[k] == x
  {
    if xs[0] == x then 0 else 1 + IndexOf(xs[1..], x)
  }
}
