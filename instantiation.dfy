/** The Instantiation record (one physical or digital copy of an asset):
    its ordered PBCore mapping declarations and the three custom hooks,
    the values it derives for display, its "set only if present" setters,
    the uuid guard run before creation, and the copy made from a template. */
module Instantiations {
  import opened RubyText
  import opened PbcoreXml

  /** The two single-table-inheritance subclasses of Format. */
  datatype FormatKind = Physical | Digital

  /** A Format vocabulary row: its id, its subclass and its name, which may be nil. */
  datatype Format = Format(id: nat, kind: FormatKind, name: Option<string>)

  /** An InstantiationColor vocabulary row. */
  datatype Color = Color(id: nat, name: string)

  /** A FormatId row; only its `format_identifier` column is read here. */
  datatype FormatId = FormatId(formatIdentifier: Option<string>)

  /** An Annotation row; only its `annotation` column is read here. */
  datatype Annotation = Annotation(annotation: Option<string>)

  // ---------------------------------------------------------------------
  // Mapping declarations
  // ---------------------------------------------------------------------

  const UuidIdentifierTag := "instantiationIdentifier"
  const UuidSource := "pbcore XML database UUID"

  const WriteUuidHook := "write uuid identifier"
  const ReadFormatHook := "read format"
  const WriteFormatHook := "write format"

  /** The declarations of the class body, in the order written. */
  const Rules: seq<Rule> := [
    XmlAttributes(["startTime", "endTime", "timeAnnotation"]),
    XmlSubelements("instantiationIdentifier", "format_ids"),
    ToXmlHook(WriteUuidHook),
    XmlSubelements("instantiationDate", "instantiation_dates"),
    XmlSubelements("instantiationDimensions", "instantiation_dimensions"),
    FromXmlHook(ReadFormatHook),
    ToXmlHook(WriteFormatHook),
    XmlString("instantiationStandard", Some("standard"), [("ref", "standard_ref"), ("source", "standard_source")]),
    XmlString("instantiationLocation", Some("format_location"), []),
    XmlString("instantiationMediaType", Some("instantiation_media_type"), []),
    XmlSubelements("instantiationGenerations", "instantiation_generations"),
    XmlString("instantiationFileSize", Some("format_file_size"), [("unitsOfMeasure", "format_file_size_units_of_measure")]),
    XmlString("instantiationTimeStart", Some("format_time_start"), []),
    XmlString("instantiationDuration", Some("format_duration"), []),
    XmlString("instantiationDataRate", Some("format_data_rate"), [("unitsOfMeasure", "format_data_rate_units_of_measure")]),
    XmlString("instantiationColors", Some("instantiation_color"), []),
    XmlString("instantiationTracks", Some("format_tracks"), []),
    XmlString("instantiationChannelConfiguration", Some("format_channel_configuration"), []),
    XmlString("instantiationLanguage", Some("language"), []),
    XmlString("instantiationAlternativeModes", Some("alternative_modes"), []),
    XmlSubelements("instantiationEssenceTrack", "essence_tracks"),
    XmlSubelements("instantiationRelation", "instantiation_relations"),
    XmlSubelements("instantiationRights", "instantiation_rights_summaries"),
    XmlSubelements("instantiationAnnotation", "annotations")
  ]

  /** The uuid identifier is written right after the declared identifiers. */
  lemma UuidHookPosition()
    ensures Rules[1] == XmlSubelements(UuidIdentifierTag, "format_ids") && Rules[2] == ToXmlHook(WriteUuidHook)
  {
  }

  /** The format is read and then written at positions 5 and 6 ... */
  lemma FormatHookPositions()
    ensures Rules[5] == FromXmlHook(ReadFormatHook) && Rules[6] == ToXmlHook(WriteFormatHook)
  {
  }

  /** ... that is, between the dimensions and the standard. */
  lemma FormatHooksBetween()
    ensures Rules[4].XmlSubelements? && Rules[4].element == "instantiationDimensions"
    ensures Rules[7].XmlString? && Rules[7].element == "instantiationStandard"
  {
  }

  /** The format reader is the only parsing hook. */
  lemma SingleReaderHook()
    ensures forall i :: 0 <= i < |Rules| && Rules[i].FromXmlHook? ==> i == 5
  {
  }

  // ---------------------------------------------------------------------
  // Tag <-> subclass
  // ---------------------------------------------------------------------

  /** `record.format.class.to_s`. */
  function ClassName(kind: FormatKind): string {
    match kind
    case Physical => "FormatPhysical"
    case Digital => "FormatDigital"
  }

  /** `constantize` on the class names the reader's rewrite can produce: the two Format
      subclasses.  None stands for every other name, which the reader never passes. */
  function ClassNamed(name: string): (r: Option<FormatKind>)
    ensures r.Some? ==> ClassName(r.value) == name
  {
    if name == "FormatPhysical" then Some(Physical)
    else if name == "FormatDigital" then Some(Digital)
    else None
  }

  /** The writer's tag: `class.to_s.sub(/^Format/, "instantiation")`. */
  function TagFor(kind: FormatKind): string {
    ReplacePrefix(ClassName(kind), "Format", "instantiation")
  }

  /** The reader's class: `name.sub(/^instantiation/, "Format").constantize`. */
  function KindOfTag(tag: string): Option<FormatKind> {
    ClassNamed(ReplacePrefix(tag, "instantiation", "Format"))
  }

  /** The XPath union `pbcore:instantiationPhysical|pbcore:instantiationDigital`. */
  predicate IsFormatTag(name: string) {
    name == "instantiationPhysical" || name == "instantiationDigital"
  }

  lemma TagForNames()
    ensures TagFor(Physical) == "instantiationPhysical"
    ensures TagFor(Digital) == "instantiationDigital"
  {
    assert StartsWith("FormatPhysical", "Format");
    assert StartsWith("FormatDigital", "Format");
    assert "FormatPhysical"[6..] == "Physical";
    assert "FormatDigital"[6..] == "Digital";
  }

  /** Writing a subclass's tag and reading it back gives the same subclass. */
  lemma TagRoundTrip(kind: FormatKind)
    ensures IsFormatTag(TagFor(kind))
    ensures KindOfTag(TagFor(kind)) == Some(kind)
  {
    TagForNames();
    var cls := ClassName(kind);
    assert StartsWith(cls, "Format");
    ReplacePrefixRoundTrip(cls, "Format", "instantiation");
  }

  /** Every tag the reader matches names a subclass whose tag it is, and the two prefix
      rewrites undo each other on it. */
  lemma FormatTagRoundTrip(tag: string)
    requires IsFormatTag(tag)
    ensures KindOfTag(tag).Some? && TagFor(KindOfTag(tag).value) == tag
    ensures ReplacePrefix(ReplacePrefix(tag, "instantiation", "Format"), "Format", "instantiation") == tag
  {
    assert StartsWith(tag, "instantiation");
    ReplacePrefixRoundTrip(tag, "instantiation", "Format");
    var kind := if tag == "instantiationPhysical" then Physical else Digital;
    TagRoundTrip(kind);
    TagForNames();
  }

  // ---------------------------------------------------------------------
  // The format hooks
  // ---------------------------------------------------------------------

  /** `find_first` of the format union: the first matching child in document order. */
  function FirstFormatChild(children: seq<Node>): (r: Option<nat>)
    ensures r.Some? ==> r.value < |children| && IsFormatTag(children[r.value].name)
    ensures r.Some? ==> forall j :: 0 <= j < r.value ==> !IsFormatTag(children[j].name)
    ensures r.None? ==> forall j :: 0 <= j < |children| ==> !IsFormatTag(children[j].name)
  {
    if |children| == 0 then None
    else if IsFormatTag(children[0].name) then Some(0)
    else
      match FirstFormatChild(children[1..])
      case None => None
      case Some(i) => Some(i + 1)
  }

  /** The record `find_or_create_by_name` returns for a matched child; the vocabulary
      store itself is the oracle `findOrCreate`, which gives the row's id. */
  function FormatOfChild(node: Node, findOrCreate: (FormatKind, string) -> nat): (f: Format)
    requires IsFormatTag(node.name)
    ensures TagFor(f.kind) == node.name && f.name == Some(node.content)
    ensures f.id == findOrCreate(f.kind, node.content)
  {
    FormatTagRoundTrip(node.name);
    var kind := KindOfTag(node.name).value;
    Format(findOrCreate(kind, node.content), kind, Some(node.content))
  }

  /** The `format` the reader leaves: unchanged without a matching child, else the lookup of the first. */
  function FormatRead(children: seq<Node>, findOrCreate: (FormatKind, string) -> nat, current: Option<Format>): Option<Format> {
    match FirstFormatChild(children)
    case None => current
    case Some(i) => Some(FormatOfChild(children[i], findOrCreate))
  }

  /** The elements the format writer appends: none without a format, else one, whose
      content is the name (empty for a nil name). */
  function FormatElements(format: Option<Format>): (r: seq<Node>)
    ensures |r| == (if format.Some? then 1 else 0)
    ensures format.Some? ==> r[0].name == TagFor(format.value.kind) && r[0].content == Text(format.value.name)
    ensures format.Some? ==> r[0].attributes == map[]
  {
    if format.Some? then [Node(TagFor(format.value.kind), map[], Text(format.value.name))] else []
  }

  lemma {:induction false} FirstFormatChildAfterOthers(children: seq<Node>, node: Node)
    requires forall j :: 0 <= j < |children| ==> !IsFormatTag(children[j].name)
    requires IsFormatTag(node.name)
    ensures FirstFormatChild(children + [node]) == Some(|children|)
  {
    if children != [] {
      assert (children + [node])[1..] == children[1..] + [node];
      FirstFormatChildAfterOthers(children[1..], node);
    }
  }

  /** Writing a format after children that carry none and reading the result back gives
      the same format, provided the vocabulary lookup finds that row by its subclass and name;
      a nil name comes back as "", since the written element is then empty. */
  lemma FormatWriteReadRoundTrip(children: seq<Node>, f: Format, findOrCreate: (FormatKind, string) -> nat, current: Option<Format>)
    requires forall j :: 0 <= j < |children| ==> !IsFormatTag(children[j].name)
    requires findOrCreate(f.kind, Text(f.name)) == f.id
    ensures f.name.Some? ==> FormatRead(children + FormatElements(Some(f)), findOrCreate, current) == Some(f)
    ensures f.name.None? ==> FormatRead(children + FormatElements(Some(f)), findOrCreate, current) == Some(f.(name := Some("")))
  {
    var node := FormatElements(Some(f))[0];
    TagRoundTrip(f.kind);
    FirstFormatChildAfterOthers(children, node);
    var g := FormatOfChild(node, findOrCreate);
    assert g.kind == f.kind by {
      TagForNames();
    }
  }

  /** The reader keeps the first of several format children and ignores the rest. */
  lemma FormatReadFirstWins(children: seq<Node>, later: seq<Node>, findOrCreate: (FormatKind, string) -> nat, current: Option<Format>)
    requires FirstFormatChild(children).Some?
    ensures FormatRead(children + later, findOrCreate, current) == FormatRead(children, findOrCreate, current)
  {
    var i := FirstFormatChild(children).value;
    var all := children + later;
    assert forall j :: 0 <= j <= i ==> all[j] == children[j];
    assert FirstFormatChild(all) == Some(i) by {
      FirstFormatChildPrefix(children, later);
    }
  }

  lemma {:induction false} FirstFormatChildPrefix(children: seq<Node>, later: seq<Node>)
    requires FirstFormatChild(children).Some?
    ensures FirstFormatChild(children + later) == FirstFormatChild(children)
  {
    if !IsFormatTag(children[0].name) {
      assert (children + later)[1..] == children[1..] + later;
      FirstFormatChildPrefix(children[1..], later);
    }
  }

  // ---------------------------------------------------------------------
  // Derived values
  // ---------------------------------------------------------------------

  /** `language_tokens`: the stored `;`-separated language list shown with commas. */
  function LanguageTokens(language: Option<string>): (r: string)
    ensures Blank(language) ==> r == ""
    ensures Present(language) ==> |r| == |language.value| && ';' !in r
    ensures Present(language) ==> forall i :: 0 <= i < |r| && language.value[i] != ';' ==> r[i] == language.value[i]
    ensures Present(language) ==> forall i :: 0 <= i < |r| && language.value[i] == ';' ==> r[i] == ','
  {
    if Present(language) then ReplaceChar(language.value, ';', ',') else ""
  }

  /** What `language_tokens=` stores for present input: commas become `;`. */
  function LanguageFromTokens(tokens: string): (r: string)
    ensures |r| == |tokens| && ',' !in r
    ensures forall i :: 0 <= i < |r| && tokens[i] != ',' ==> r[i] == tokens[i]
    ensures forall i :: 0 <= i < |r| && tokens[i] == ',' ==> r[i] == ';'
  {
    ReplaceChar(tokens, ',', ';')
  }

  /** A present language without commas survives being shown as tokens and set from them. */
  lemma LanguageTokensRoundTrip(language: string)
    requires Present(Some(language)) && ',' !in language
    ensures Present(Some(LanguageTokens(Some(language))))
    ensures LanguageFromTokens(LanguageTokens(Some(language))) == language
  {
    var shown := LanguageTokens(Some(language));
    var i :| 0 <= i < |language| && !IsRegexSpace(language[i]);
    assert !IsRegexSpace(shown[i]);
    ReplaceCharRoundTrip(language, ';', ',');
  }

  /** The `format_identifier` of each FormatId, nil shown as "". */
  function IdentifierTexts(formatIds: seq<FormatId>): (r: seq<string>)
    ensures |r| == |formatIds|
    ensures forall i :: 0 <= i < |r| ==> r[i] == Text(formatIds[i].formatIdentifier)
  {
    seq(|formatIds|, i requires 0 <= i < |formatIds| => Text(formatIds[i].formatIdentifier))
  }

  /** `identifier`: the format identifiers joined by "; ". */
  function Identifier(formatIds: seq<FormatId>): (r: string)
    ensures formatIds == [] ==> r == ""
    ensures |formatIds| == 1 ==> r == Text(formatIds[0].formatIdentifier)
    ensures formatIds != [] ==> StartsWith(r, Text(formatIds[0].formatIdentifier))
    ensures formatIds != [] ==> EndsWith(r, Text(formatIds[|formatIds| - 1].formatIdentifier))
  {
    Join(IdentifierTexts(formatIds), "; ")
  }

  /** The identifier of two non-empty lists of FormatIds in a row is theirs joined by "; ";
      with the one-identifier case this fixes `identifier` for every list. */
  lemma IdentifierAppend(a: seq<FormatId>, b: seq<FormatId>)
    requires a != [] && b != []
    ensures Identifier(a + b) == Identifier(a) + "; " + Identifier(b)
  {
    assert IdentifierTexts(a + b) == IdentifierTexts(a) + IdentifierTexts(b);
    JoinAppend(IdentifierTexts(a), IdentifierTexts(b), "; ");
  }

  /** The text `summary` strips: identifiers joined by " / ", then " (name)" when there is a format. */
  function SummaryText(formatIds: seq<FormatId>, format: Option<Format>): string {
    Join(IdentifierTexts(formatIds), " / ") + (if format.None? then "" else " (" + Text(format.value.name) + ")")
  }

  /** `summary`: the stripped text, or "(instantiation)" when nothing is left of it. */
  function Summary(formatIds: seq<FormatId>, format: Option<Format>): (r: string)
    ensures r != ""
    ensures Strip(SummaryText(formatIds, format)) == [] ==> r == "(instantiation)"
    ensures Strip(SummaryText(formatIds, format)) != [] ==> r == Strip(SummaryText(formatIds, format))
  {
    var s := Strip(SummaryText(formatIds, format));
    if s == [] then "(instantiation)" else s
  }

  /** The summary is the fallback exactly when the text holds only whitespace and NUL
      characters; otherwise it is the stripped text, with no strippable character at
      either end. */
  lemma SummaryIsStripped(formatIds: seq<FormatId>, format: Option<Format>)
    ensures var text := SummaryText(formatIds, format);
      (forall i :: 0 <= i < |text| ==> IsTrailingStrip(text[i])) ==> Summary(formatIds, format) == "(instantiation)"
    ensures var text := SummaryText(formatIds, format); var r := Summary(formatIds, format);
      !(forall i :: 0 <= i < |text| ==> IsTrailingStrip(text[i])) ==>
        r == Strip(text) && !IsStripSpace(r[0]) && !IsTrailingStrip(r[|r| - 1])
  {
    StripEmpty(SummaryText(formatIds, format));
  }

  /** A lone identifier with no strippable character at either end and no format is its
      own summary. */
  lemma SummaryOfIdentifierOnly(id: string)
    requires id != [] && !IsStripSpace(id[0]) && !IsTrailingStrip(id[|id| - 1])
    ensures Summary([FormatId(Some(id))], None) == id
  {
    var text := SummaryText([FormatId(Some(id))], None);
    assert IdentifierTexts([FormatId(Some(id))]) == [id];
    assert text == id;
    assert LStrip(id) == id;
    assert RStrip(id) == id;
  }

  /** A record with nothing to show is summarised as "(instantiation)". */
  lemma SummaryOfEmpty()
    ensures Summary([], None) == "(instantiation)"
  {
    assert SummaryText([], None) == "";
  }

  /** A parenthesised name starts and ends with characters `strip` keeps. */
  lemma ParenthesesNotStripped(name: string)
    ensures var t := "(" + name + ")"; !IsStripSpace(t[0]) && !IsTrailingStrip(t[|t| - 1])
  {
    var t := "(" + name + ")";
    assert t[0] == '(' && t[|t| - 1] == ')';
  }

  /** With a format, the summary always ends with its name (empty when nil) in parentheses. */
  lemma SummaryShowsFormat(formatIds: seq<FormatId>, f: Format)
    ensures EndsWith(Summary(formatIds, Some(f)), "(" + Text(f.name) + ")")
  {
    var name := Text(f.name);
    var tail := "(" + name + ")";
    var text := SummaryText(formatIds, Some(f));
    assert text == Join(IdentifierTexts(formatIds), " / ") + (" (" + name + ")");
    FormatSuffix(Join(IdentifierTexts(formatIds), " / "), name);
    ParenthesesNotStripped(name);
    StripKeepsTail(text, tail);
  }

  /** The text after the identifiers ends in the parenthesised name. */
  lemma FormatSuffix(ids: string, name: string)
    ensures EndsWith(ids + (" (" + name + ")"), "(" + name + ")")
  {
    var tail := "(" + name + ")";
    assert " (" + name + ")" == " " + tail;
    assert ids + (" (" + name + ")") == (ids + " ") + tail;
  }

  /** `annotation`: nil without annotations, else their texts joined by "; " in brackets. */
  function AnnotationSummary(annotations: seq<Annotation>): (r: Option<string>)
    ensures r.None? <==> annotations == []
    ensures r.Some? ==> |r.value| >= 2 && StartsWith(r.value, "[") && EndsWith(r.value, "]")
    ensures r.Some? ==> r.value[1..|r.value| - 1] == Join(AnnotationTexts(annotations), "; ")
  {
    if annotations == [] then None
    else Some("[" + Join(AnnotationTexts(annotations), "; ") + "]")
  }

  function AnnotationTexts(annotations: seq<Annotation>): (r: seq<string>)
    ensures |r| == |annotations|
    ensures forall i :: 0 <= i < |r| ==> r[i] == Text(annotations[i].annotation)
  {
    seq(|annotations|, i requires 0 <= i < |annotations| => Text(annotations[i].annotation))
  }

  /** `[a-z]{1,8}://` at the start of a line, with `n` letters. */
  predicate SchemeAt(line: string, n: nat) {
    n + 3 <= |line| && (forall i :: 0 <= i < n ==> IsLowerLetter(line[i])) && line[n..n + 3] == "://"
  }

  /** `job[0-9]{4}` at the start of a line. */
  predicate JobNumber(line: string) {
    StartsWith(line, "job") && 7 <= |line| && forall i :: 3 <= i < 7 ==> IsDigit(line[i])
  }

  /** The first `when` of `availability`, on one line. */
  predicate InHouseLine(line: string) {
    || StartsWithIgnoringCase(line, "archive")
    || StartsWithIgnoringCase(line, "wnet")
    || StartsWith(line, "/")
    || (exists n: nat :: 1 <= n <= 8 && SchemeAt(line, n))
    || JobNumber(line)
  }

  /** The second `when` of `availability`, on one line. */
  predicate OffsiteLine(line: string) {
    StartsWithIgnoringCase(line, "offsite") || StartsWithIgnoringCase(line, "tbd")
  }

  /** The value one line gets: the first branch whose pattern it matches. */
  function LineAvailability(line: string): nat {
    if InHouseLine(line) then 2 else if OffsiteLine(line) then 1 else 0
  }

  /** `availability`: 2, 1 or 0 by the location's line prefixes, first branch winning;
      a nil location matches no pattern. */
  function Availability(location: Option<string>): (r: nat)
    ensures r <= 2
    ensures r == 2 <==> location.Some? && AnyLine(location.value, InHouseLine)
    ensures r == 1 <==> location.Some? && !AnyLine(location.value, InHouseLine) && AnyLine(location.value, OffsiteLine)
    ensures location.None? ==> r == 0
  {
    if location.None? then 0
    else if AnyLine(location.value, InHouseLine) then 2
    else if AnyLine(location.value, OffsiteLine) then 1
    else 0
  }

  /** For a location on one line, the line anchors are the start of the location. */
  lemma AvailabilityOfOneLine(location: string)
    requires '\n' !in location
    ensures Availability(Some(location)) == LineAvailability(location)
  {
    SingleLine(location, InHouseLine);
    SingleLine(location, OffsiteLine);
  }

  /** Ruby's `^` anchors at every line: an in-house line after any text makes the location 2. */
  lemma AvailabilityOfLaterLine(before: string, line: string)
    requires '\n' !in line && InHouseLine(line)
    ensures Availability(Some(before + "\n" + line)) == 2
  {
    SplitAllConcat(before, line, '\n');
    SplitAllWithout(line, '\n');
    var ls := Lines(before + "\n" + line);
    assert ls[|ls| - 1] == line;
  }

  /** A one-line location starting with "archive" or "wnet", in any case, is in-house. */
  lemma InHouseWordAnyCase(location: string)
    requires '\n' !in location
    requires StartsWithIgnoringCase(location, "archive") || StartsWithIgnoringCase(location, "wnet")
    ensures Availability(Some(location)) == 2
  {
    AvailabilityOfOneLine(location);
  }

  /** A one-line location that is an absolute path is in-house. */
  lemma AbsolutePathInHouse(location: string)
    requires '\n' !in location && StartsWith(location, "/")
    ensures Availability(Some(location)) == 2
  {
    AvailabilityOfOneLine(location);
  }

  /** A one-line location led by a URL scheme of one to eight lower-case letters is in-house. */
  lemma SchemeInHouse(location: string, n: nat)
    requires '\n' !in location && 1 <= n <= 8 && SchemeAt(location, n)
    ensures Availability(Some(location)) == 2
  {
    AvailabilityOfOneLine(location);
  }

  /** A one-line location led by `job` and four digits is in-house. */
  lemma JobNumberInHouse(location: string)
    requires '\n' !in location && JobNumber(location)
    ensures Availability(Some(location)) == 2
  {
    AvailabilityOfOneLine(location);
  }

  /** A one-line location starting with "offsite" or "tbd", in any case, is 1, unless it
      also reads as a URL scheme, which the first branch takes. */
  lemma OffsiteAnyCase(location: string)
    requires '\n' !in location
    requires StartsWithIgnoringCase(location, "offsite") || StartsWithIgnoringCase(location, "tbd")
    requires forall n: nat :: 1 <= n <= 8 ==> !SchemeAt(location, n)
    ensures Availability(Some(location)) == 1
  {
    AvailabilityOfOneLine(location);
    var c := Lower(location[0]);
    assert c == 'o' || c == 't' by {
      assert "offsite"[0] == 'o' && "tbd"[0] == 't';
    }
    assert !StartsWithIgnoringCase(location, "archive") by {
      assert "archive"[0] == 'a';
    }
    assert !StartsWithIgnoringCase(location, "wnet") by {
      assert "wnet"[0] == 'w';
    }
    assert !StartsWith(location, "/") by {
      assert location[..1][0] == location[0];
    }
    assert !JobNumber(location) by {
      assert location[..3][0] == location[0];
    }
  }

  /** "offsite://vault" is in-house: the URL-scheme pattern of the first branch wins. */
  lemma OffsiteSchemeIsInHouse()
    ensures LineAvailability("offsite://vault") == 2
  {
    assert SchemeAt("offsite://vault", 7);
  }

  /** "ARCHIVE shelf 3" is in-house, since words are matched ignoring case. */
  lemma ArchiveExample()
    ensures LineAvailability("ARCHIVE shelf 3") == 2
  {
    assert StartsWithIgnoringCase("ARCHIVE shelf 3", "archive");
  }

  /** "rtmp://media/clip" is in-house. */
  lemma SchemeExample()
    ensures LineAvailability("rtmp://media/clip") == 2
  {
    assert SchemeAt("rtmp://media/clip", 4);
  }

  /** "job1234 tape" is in-house. */
  lemma JobExample()
    ensures LineAvailability("job1234 tape") == 2
  {
    assert JobNumber("job1234 tape");
  }

  /** A line whose first character starts none of the in-house patterns is not in-house. */
  lemma NotInHouseByFirstChar(line: string)
    requires line != [] && !IsLowerLetter(line[0]) && line[0] != '/'
    requires Lower(line[0]) != 'a' && Lower(line[0]) != 'w'
    ensures !InHouseLine(line)
  {
    assert !StartsWithIgnoringCase(line, "archive") by {
      assert "archive"[0] == 'a';
    }
    assert !StartsWithIgnoringCase(line, "wnet") by {
      assert "wnet"[0] == 'w';
    }
    assert !StartsWith(line, "/") by {
      assert line[..1][0] == line[0];
    }
    assert !StartsWith(line, "job") by {
      if |line| >= 3 {
        assert line[..3][0] == line[0];
      }
    }
    forall n: nat | 1 <= n <= 8
      ensures !SchemeAt(line, n)
    {
    }
  }

  /** A line whose first character starts neither offsite pattern is not offsite. */
  lemma NotOffsiteByFirstChar(line: string)
    requires line != [] && Lower(line[0]) != 'o' && Lower(line[0]) != 't'
    ensures !OffsiteLine(line)
  {
    assert "offsite"[0] == 'o' && "tbd"[0] == 't';
  }

  /** "Offsite storage" is 1. */
  lemma OffsiteExample()
    ensures LineAvailability("Offsite storage") == 1
  {
    var loc := "Offsite storage";
    assert loc[0] == 'O';
    NotInHouseByFirstChar(loc);
    assert StartsWithIgnoringCase(loc, "offsite");
  }

  /** `job` is matched in lower case only. */
  lemma JobIsCaseSensitive()
    ensures LineAvailability("Job1234") == 0
  {
    var job := "Job1234";
    assert job[0] == 'J';
    NotInHouseByFirstChar(job);
    NotOffsiteByFirstChar(job);
  }

  /** The URL scheme is matched in lower case only. */
  lemma SchemeIsCaseSensitive()
    ensures LineAvailability("HTTP://media") == 0
  {
    var url := "HTTP://media";
    assert url[0] == 'H';
    NotInHouseByFirstChar(url);
    NotOffsiteByFirstChar(url);
  }

  // ---------------------------------------------------------------------
  // new_from_template
  // ---------------------------------------------------------------------

  /** A template instantiation as loaded with its essence tracks and annotations: attribute hashes. */
  datatype Template<V> = Template(attributes: map<string, V>, essenceTracks: seq<map<string, V>>, annotations: seq<map<string, V>>)

  /** The unsaved copy: its attributes, its asset (an id, or None) and its new tracks and annotations. */
  datatype TemplateCopy<V> = TemplateCopy(attributes: map<string, V>, asset: Option<nat>, essenceTracks: seq<map<string, V>>, annotations: seq<map<string, V>>)

  const TemplateOnlyKeys: set<string> := {"asset_id", "template_name", "id", "uuid"}
  const EssenceTrackSkippedKeys: set<string> := {"instantiation_id", "id", "essence_track_duration"}
  const AnnotationSkippedKeys: set<string> := {"instantiation_id", "id"}

  /** `attributes.reject{|k, v| keys.include?(k)}`. */
  function Without<V>(attributes: map<string, V>, keys: set<string>): (r: map<string, V>)
    ensures r.Keys == attributes.Keys - keys
    ensures forall k :: k in r ==> r[k] == attributes[k]
  {
    attributes - keys
  }

  /** `Instantiation.new_from_template`, given the template instead of its id. */
  method NewFromTemplate<V>(template: Template<V>, asset: Option<nat>) returns (copy: TemplateCopy<V>)
    ensures copy.attributes == Without(template.attributes, TemplateOnlyKeys)
    ensures copy.asset == asset
    ensures |copy.essenceTracks| == |template.essenceTracks|
    ensures forall i :: 0 <= i < |template.essenceTracks| ==>
      copy.essenceTracks[i] == Without(template.essenceTracks[i], EssenceTrackSkippedKeys)
    ensures |copy.annotations| == |template.annotations|
    ensures forall i :: 0 <= i < |template.annotations| ==>
      copy.annotations[i] == Without(template.annotations[i], AnnotationSkippedKeys)
  {
    copy := TemplateCopy(Without(template.attributes, TemplateOnlyKeys), None, [], []);
    copy := copy.(asset := asset);
    var i := 0;
    while i < |template.essenceTracks|
      invariant 0 <= i <= |template.essenceTracks|
      invariant copy.attributes == Without(template.attributes, TemplateOnlyKeys) && copy.asset == asset
      invariant copy.annotations == []
      invariant |copy.essenceTracks| == i
      invariant forall j :: 0 <= j < i ==> copy.essenceTracks[j] == Without(template.essenceTracks[j], EssenceTrackSkippedKeys)
    {
      var et := template.essenceTracks[i];
      copy := copy.(essenceTracks := copy.essenceTracks + [Without(et, EssenceTrackSkippedKeys)]);
      i := i + 1;
    }
    var k := 0;
    while k < |template.annotations|
      invariant 0 <= k <= |template.annotations|
      invariant copy.attributes == Without(template.attributes, TemplateOnlyKeys) && copy.asset == asset
      invariant |copy.essenceTracks| == |template.essenceTracks|
      invariant forall j :: 0 <= j < |template.essenceTracks| ==> copy.essenceTracks[j] == Without(template.essenceTracks[j], EssenceTrackSkippedKeys)
      invariant |copy.annotations| == k
      invariant forall j :: 0 <= j < k ==> copy.annotations[j] == Without(template.annotations[j], AnnotationSkippedKeys)
    {
      var an := template.annotations[k];
      copy := copy.(annotations := copy.annotations + [Without(an, AnnotationSkippedKeys)]);
      k := k + 1;
    }
  }

  // ---------------------------------------------------------------------
  // The record and its state-changing members
  // ---------------------------------------------------------------------

  /** The uuid `generate_uuid` keeps: one that is set and not empty. */
  predicate HasUuid(uuid: Option<string>) {
    uuid.Some? && uuid.value != []
  }

  class Instantiation {
    var uuid: Option<string>
    var format: Option<Format>
    var instantiationColor: Option<Color>
    var language: Option<string>
    /** The argument last passed to `instantiation_generation_ids=`. */
    var instantiationGenerationIds: seq<string>

    /** `Instantiation.new`: every column nil, no generation ids. */
    constructor ()
      ensures uuid == None && format == None && instantiationColor == None
      ensures language == None && instantiationGenerationIds == []
    {
      uuid, format, instantiationColor := None, None, None;
      language, instantiationGenerationIds := None, [];
    }

    /** The first `to_xml_elt` hook: append one identifier carrying the uuid and a fixed source. */
    method WriteUuidIdentifier(xml: XmlElement)
      modifies xml
      ensures xml.children == old(xml.children) + [Node(UuidIdentifierTag, map["source" := UuidSource], Text(uuid))]
      ensures xml.name == old(xml.name) && xml.attributes == old(xml.attributes)
    {
      var fid := Node(UuidIdentifierTag, map[], Text(uuid));
      fid := fid.(attributes := fid.attributes["source" := UuidSource]);
      xml.Append(fid);
    }

    /** The `from_xml_elt` hook: take the first physical or digital child, if any, and
        set `format` to the vocabulary row of that subclass with the child's text. */
    method ReadFormat(xml: XmlElement, findOrCreate: (FormatKind, string) -> nat)
      modifies this`format
      ensures format == FormatRead(xml.children, findOrCreate, old(format))
    {
      var found := FirstFormatChild(xml.children);
      if found.Some? {
        format := Some(FormatOfChild(xml.children[found.value], findOrCreate));
      }
    }

    /** The second `to_xml_elt` hook: with a format, append its subclass's tag holding its name. */
    method WriteFormat(xml: XmlElement)
      modifies xml
      ensures xml.children == old(xml.children) + FormatElements(format)
      ensures xml.name == old(xml.name) && xml.attributes == old(xml.attributes)
    {
      if format.Some? {
        var eltname := ReplacePrefix(ClassName(format.value.kind), "Format", "instantiation");
        xml.Append(Node(eltname, map[], Text(format.value.name)));
      }
    }

    /** `format_name=`: look the name up only when it is present; the lookup may find nothing. */
    method SetFormatName(name: Option<string>, findByName: string -> Option<Format>)
      modifies this`format
      ensures format == if Present(name) then findByName(name.value) else old(format)
    {
      if Present(name) {
        format := findByName(name.value);
      }
    }

    /** `instantiation_color_name=`: the same rule for the colour vocabulary. */
    method SetInstantiationColorName(name: Option<string>, findByName: string -> Option<Color>)
      modifies this`instantiationColor
      ensures instantiationColor == if Present(name) then findByName(name.value) else old(instantiationColor)
    {
      if Present(name) {
        instantiationColor := findByName(name.value);
      }
    }

    /** `language_tokens=`: store the tokens with `;` for `,`, only when they are present. */
    method SetLanguageTokens(tokens: Option<string>)
      modifies this`language
      ensures language == if Present(tokens) then Some(LanguageFromTokens(tokens.value)) else old(language)
    {
      if Present(tokens) {
        language := Some(ReplaceChar(tokens.value, ',', ';'));
      }
    }

    /** `instantiation_generation_tokens=`: the comma-split pieces are what is passed to the
        association writer `instantiation_generation_ids=`. */
    method SetInstantiationGenerationTokens(ids: string)
      modifies this`instantiationGenerationIds
      ensures instantiationGenerationIds == Split(ids, ',')
    {
      instantiationGenerationIds := Split(ids, ',');
    }

    /** `generate_uuid`: keep a set, non-empty uuid; otherwise take the fresh random one. */
    method GenerateUuid(random: string)
      modifies this`uuid
      ensures HasUuid(old(uuid)) ==> uuid == old(uuid)
      ensures !HasUuid(old(uuid)) ==> uuid == Some(random)
    {
      if !(uuid.Some? && uuid.value != []) {
        uuid := Some(random);
      }
    }
  }
}
