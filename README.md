# PBCore database core, modelled in Dafny

This project models the core of a Rails 2.3 application that keeps PBCore
(Public Broadcasting Metadata Dictionary) records. It covers four parts.

- **Instantiation**, one physical or digital copy of an asset:
  - its mapping declarations, kept in source order;
  - the three custom XML hooks: the uuid identifier writer, and the format reader and writer;
  - the "set only when present" setters;
  - the derived display values `identifier`, `summary`, `annotation` and `availability`;
  - the uuid guard run before creation;
  - the copy made from a template.
- **ExtensionName**: the description it synthesises before every save, `name` and `safe_to_delete?`.
- **Creator**: `to_s` and its two ordered declarations.
- **AssetsController**, decision logic only:
  - the id dispatch of `show`;
  - the page default of `index`;
  - the `authorized?` whitelist;
  - the zip download gate;
  - the parameter defaults of `update`;
  - the annotation toggle kept in the session.

The model is split into modules:

- `RubyText` (`ruby_text.dfy`) holds the Ruby and ActiveSupport string behaviour that the models rely on:
  - `blank?` and `present?` with Ruby's `\s`;
  - `strip` with C `isspace` and trailing NUL;
  - `split`, which drops trailing empty pieces;
  - `gsub` of one character, and `join`;
  - the anchors `^` and `$`, which in Ruby match at every line and not only at the ends of the string.

  It proves round trips for these operations, such as split/join and prefix rewrite/undo.
- `PbcoreXml` (`pbcore_xml.dfy`) holds the declaration vocabulary as data, and the XML element that the hooks append to.
- `Instantiations`, `ExtensionNames`, `Creators` and `AssetsController` each follow one source file.

Things the source observes in the outside world are parameters:

- vocabulary lookups (`find_by_name`, `find_or_create_by_name`);
- `UUID.random_create`;
- the search index's `search_count`;
- the logged-in and administrator status.

Records whose fields the source assigns are classes with `modifies` clauses:

- `Instantiation`, `ExtensionName`, the session, and the XML element under construction.

Derived values and branching decisions are functions. The record's columns that they read (`format_location`, `format_ids`, `annotations`) are passed to them as parameters. Each such function either states its promise in its own contract or has lemmas that relate it to a partner: an inverse, a reference rule, or a law such as `IdentifierAppend`. The `||=` defaults of `update`, the page option of `index` and the annotation toggle are methods, because the source changes a hash or the session step by step.

The regular expressions are modelled with Ruby's own line anchors. `show` therefore treats an id any of whose lines is all digits as numeric. `availability` looks for its prefixes at the start of every line. Lemmas reduce both to plain start-of-string tests for single-line input.

## Model

| member | source | states |
|---|---|---|
| RubyText.ReplacePrefix | app/models/instantiation.rb:52 | `sub(/^p/, q)` on one line: a leading `p` becomes `q` with the rest kept; otherwise the string is unchanged |
| RubyText.Blank | app/models/instantiation.rb:93 | ActiveSupport `blank?`: nil, or only `\s` characters (definition) |
| RubyText.Present | app/models/instantiation.rb:93 | `present?` is `!blank?` (definition) |
| RubyText.Text | app/models/instantiation.rb:122 | `join` and `"#{}"` show nil as "" (definition) |
| RubyText.ReplacePrefixRoundTrip | app/models/instantiation.rb:52-58 | rewriting a leading `p` to `q` and back restores the string |
| RubyText.ReplaceChar | app/models/instantiation.rb:106 | one-character `gsub`: same length, each `from` becomes `to`, every other character kept |
| RubyText.ReplaceCharRoundTrip | app/models/instantiation.rb:106-113 | replacing `a` by `b` and back restores a string without `b` |
| RubyText.Join | app/models/instantiation.rb:122 | `join`: "" for no items, the item for one, otherwise starts with the first item and ends with the last |
| RubyText.JoinAppend | app/models/instantiation.rb:122 | joining two non-empty lists in a row is joining each with the separator between |
| RubyText.SplitAllJoin | app/models/instantiation.rb:118 | the raw pieces joined with the separator give back the string |
| RubyText.SplitAll | app/models/instantiation.rb:118 | the cut at every separator, keeping empty pieces: at least one piece |
| RubyText.SplitAllLastPiece | app/models/instantiation.rb:118 | the last raw piece is empty only when the string is empty or ends in the separator |
| RubyText.SplitAllPieces | app/models/instantiation.rb:118 | no raw piece contains the separator |
| RubyText.DropTrailingEmpty | app/models/instantiation.rb:118 | drops exactly the empty pieces at the end: a prefix of the input, ending in a non-empty piece or empty |
| RubyText.Split | app/models/instantiation.rb:118 | `split(",")`: no piece contains the separator and the last piece is never empty |
| RubyText.SplitJoinRoundTrip | app/models/instantiation.rb:118 | a non-empty string not ending in the separator is recovered by joining its split pieces |
| RubyText.SplitEmpty | app/models/instantiation.rb:118 | `"".split(",")` is the empty list |
| RubyText.Lines | app/controllers/assets_controller.rb:36 | the lines `^` and `$` anchor to: at least one, none holding a line feed |
| RubyText.AnyLine | app/controllers/assets_controller.rb:36 | a `^`-anchored pattern matches when some line satisfies it (definition) |
| RubyText.DropPrefixEveryLine | app/controllers/assets_controller.rb:39 | `gsub(/^p/, "")`: a leading `p` removed from every line (definition) |
| RubyText.SingleLine | app/controllers/assets_controller.rb:36 | without line feeds a line-anchored pattern matches exactly when it matches the whole string |
| RubyText.DropPrefixSingleLine | app/controllers/assets_controller.rb:39 | on one line `gsub(/^p/, "")` removes one leading `p` |
| RubyText.StartsWithIgnoringCase | app/models/instantiation.rb:154-156 | `/^p/i` on one line for a lower-case pattern: the first characters, folded to lower case, are `p` (definition) |
| RubyText.LStrip | app/models/instantiation.rb:127 | the left part of `strip`: a suffix of the input whose dropped characters are all whitespace and whose first one is not |
| RubyText.RStrip | app/models/instantiation.rb:127 | the right part of `strip`: a prefix of the input whose dropped characters are all whitespace or NUL and whose last one is not |
| RubyText.Strip | app/models/instantiation.rb:127 | a non-empty result of `strip` has no strippable character at either end |
| RubyText.StripEmpty | app/models/instantiation.rb:127-128 | `strip` gives "" exactly when every character is whitespace or NUL |
| RubyText.StripKeepsTail | app/models/instantiation.rb:126-127 | stripping keeps a tail that starts with a non-whitespace character and ends with one that is neither whitespace nor NUL |
| PbcoreXml.XmlElement.Append | app/models/instantiation.rb:45 | `xml << node` appends the node as the last child and changes nothing else |
| Instantiations.Rules | app/models/instantiation.rb:39-78 | the mapping declarations of the class body, in source order, with the three hooks in place (definition) |
| Instantiations.UuidHookPosition | app/models/instantiation.rb:40-46 | the uuid writer comes right after the identifier declaration |
| Instantiations.FormatHookPositions | app/models/instantiation.rb:49-61 | the format reader and then the format writer are the sixth and seventh declarations |
| Instantiations.FormatHooksBetween | app/models/instantiation.rb:48-62 | the declarations around the format hooks are the dimensions and the standard |
| Instantiations.SingleReaderHook | app/models/instantiation.rb:39-78 | the format reader is the only parsing hook |
| Instantiations.ClassName | app/models/instantiation.rb:58 | `format.class.to_s`: the subclass's class name (definition) |
| Instantiations.ClassNamed | app/models/instantiation.rb:52 | `constantize` on the two names the reader's rewrite can produce gives the subclass of that name |
| Instantiations.TagFor | app/models/instantiation.rb:58 | the writer's tag: the class name with a leading "Format" rewritten to "instantiation" (definition) |
| Instantiations.KindOfTag | app/models/instantiation.rb:52 | the reader's class: the tag with a leading "instantiation" rewritten to "Format", then `constantize` (definition) |
| Instantiations.IsFormatTag | app/models/instantiation.rb:50 | the XPath union matches `instantiationPhysical` and `instantiationDigital` (definition) |
| Instantiations.TagForNames | app/models/instantiation.rb:58 | the writer's tags are `instantiationPhysical` and `instantiationDigital` |
| Instantiations.TagRoundTrip | app/models/instantiation.rb:52-58 | the tag written for a subclass is one the reader matches, and it maps back to the same subclass |
| Instantiations.FormatTagRoundTrip | app/models/instantiation.rb:50-58 | every tag the reader matches names a subclass whose written tag is that tag; the two prefix rewrites undo each other |
| Instantiations.FirstFormatChild | app/models/instantiation.rb:50 | `find_first`: the index of a format child with no format child before it, or none when no child matches |
| Instantiations.FormatOfChild | app/models/instantiation.rb:51-53 | the found row has the subclass of the child's tag, the child's text as its (non-nil) name, and the id the vocabulary gives |
| Instantiations.FormatRead | app/models/instantiation.rb:49-55 | the reader keeps `format` without a format child, and otherwise takes the row found for the first one (definition) |
| Instantiations.FormatElements | app/models/instantiation.rb:56-61 | the writer emits one element, tagged by subclass and holding the name ("" for nil), when there is a format, and none otherwise |
| Instantiations.FormatWriteReadRoundTrip | app/models/instantiation.rb:49-61 | writing a format after children without one and reading back gives the same format when the vocabulary finds that row; a nil name comes back as "" |
| Instantiations.FormatReadFirstWins | app/models/instantiation.rb:50 | children after the first format child do not affect what is read |
| Instantiations.LanguageTokens | app/models/instantiation.rb:104-110 | blank language gives ""; otherwise the same text, position by position, with every `;` shown as `,` |
| Instantiations.LanguageFromTokens | app/models/instantiation.rb:113 | the stored text has, position by position, every `,` replaced by `;` and is otherwise unchanged |
| Instantiations.LanguageTokensRoundTrip | app/models/instantiation.rb:104-114 | a present language without commas is restored by showing it as tokens and setting it from them |
| Instantiations.IdentifierTexts | app/models/instantiation.rb:122 | one text per FormatId, nil shown as "" |
| Instantiations.Identifier | app/models/instantiation.rb:121-123 | "" with no identifiers, the one identifier alone, otherwise begins with the first and ends with the last |
| Instantiations.IdentifierAppend | app/models/instantiation.rb:121-123 | the identifier of two non-empty lists in a row is their identifiers joined by "; "; with the one-identifier case this fixes the value for every list |
| Instantiations.Summary | app/models/instantiation.rb:125-129 | never empty; "(instantiation)" when the text strips to "", and otherwise the stripped text |
| Instantiations.SummaryIsStripped | app/models/instantiation.rb:125-129 | "(instantiation)" exactly when the identifier-and-format text holds only whitespace and NUL; otherwise the stripped text, with no strippable character at either end |
| Instantiations.SummaryOfIdentifierOnly | app/models/instantiation.rb:125-129 | one identifier that starts with a non-whitespace character and ends with one that is neither whitespace nor NUL, with no format, is summarised as that identifier |
| Instantiations.SummaryOfEmpty | app/models/instantiation.rb:125-129 | a record with no identifiers and no format is summarised as "(instantiation)" |
| Instantiations.SummaryText | app/models/instantiation.rb:126-127 | the text before stripping: identifiers joined by " / ", then " (name)" when there is a format, nil name as "" (definition) |
| Instantiations.SummaryShowsFormat | app/models/instantiation.rb:125-129 | with a format the summary ends with "(name)", nil name as "()" |
| Instantiations.AnnotationSummary | app/models/instantiation.rb:131-133 | nil exactly when there are no annotations; otherwise their texts joined by "; " inside brackets |
| Instantiations.AnnotationTexts | app/models/instantiation.rb:132 | one text per annotation, nil shown as "" |
| Instantiations.Availability | app/models/instantiation.rb:152-161 | 2 exactly when some line has an in-house prefix; 1 exactly when none does but one has an offsite prefix; nil is 0 |
| Instantiations.AvailabilityOfOneLine | app/models/instantiation.rb:152-161 | for a one-line location the value is that of its first matching branch |
| Instantiations.AvailabilityOfLaterLine | app/models/instantiation.rb:154 | an in-house line after any text makes the location 2 |
| Instantiations.SchemeAt | app/models/instantiation.rb:154 | `[a-z]{n}://` at the start of a line (definition) |
| Instantiations.JobNumber | app/models/instantiation.rb:154 | `job[0-9]{4}` at the start of a line (definition) |
| Instantiations.InHouseLine | app/models/instantiation.rb:154 | one line matches a pattern of the first `when` (definition) |
| Instantiations.OffsiteLine | app/models/instantiation.rb:156 | one line matches a pattern of the second `when` (definition) |
| Instantiations.LineAvailability | app/models/instantiation.rb:153-160 | the value of one line: 2, 1 or 0 by the first `when` it matches (definition) |
| Instantiations.InHouseWordAnyCase | app/models/instantiation.rb:154 | every one-line location starting with "archive" or "wnet", in any case, is 2 |
| Instantiations.AbsolutePathInHouse | app/models/instantiation.rb:154 | every one-line location starting with "/" is 2 |
| Instantiations.SchemeInHouse | app/models/instantiation.rb:154 | every one-line location led by a URL scheme of one to eight lower-case letters is 2 |
| Instantiations.JobNumberInHouse | app/models/instantiation.rb:154 | every one-line location led by "job" and four digits is 2 |
| Instantiations.OffsiteAnyCase | app/models/instantiation.rb:153-157 | every one-line location starting with "offsite" or "tbd", in any case, is 1 unless it also reads as a URL scheme |
| Instantiations.OffsiteSchemeIsInHouse | app/models/instantiation.rb:153-156 | "offsite://vault" is 2, because the first `when` is tried first |
| Instantiations.ArchiveExample | app/models/instantiation.rb:154 | "ARCHIVE shelf 3" is 2 |
| Instantiations.SchemeExample | app/models/instantiation.rb:154 | "rtmp://media/clip" is 2 |
| Instantiations.JobExample | app/models/instantiation.rb:154 | "job1234 tape" is 2 |
| Instantiations.OffsiteExample | app/models/instantiation.rb:156 | "Offsite storage" is 1 |
| Instantiations.JobIsCaseSensitive | app/models/instantiation.rb:154-160 | "Job1234" falls through to 0, since the job pattern is case-sensitive |
| Instantiations.SchemeIsCaseSensitive | app/models/instantiation.rb:154-160 | "HTTP://media" falls through to 0, since the URL-scheme pattern is case-sensitive |
| Instantiations.Without | app/models/instantiation.rb:179 | `reject` by key list: exactly the other keys, with their values |
| Instantiations.NewFromTemplate | app/models/instantiation.rb:177-190 | the copy has the template's attributes minus asset_id/template_name/id/uuid and the given asset, plus one track and one annotation per template row, in order, each minus its skipped keys |
| Instantiations.HasUuid | app/models/instantiation.rb:203 | the guard `uuid && !uuid.empty?` (definition) |
| Instantiations.Instantiation.constructor | app/models/instantiation.rb:1-12 | a new record has every modelled column nil and no generation ids |
| Instantiations.Instantiation.WriteUuidIdentifier | app/models/instantiation.rb:41-46 | appends one `instantiationIdentifier` holding the uuid with source "pbcore XML database UUID" |
| Instantiations.Instantiation.ReadFormat | app/models/instantiation.rb:49-55 | `format` becomes the lookup of the first format child, or stays as it was when there is none |
| Instantiations.Instantiation.WriteFormat | app/models/instantiation.rb:56-61 | appends exactly the writer's elements for the current format |
| Instantiations.Instantiation.SetFormatName | app/models/instantiation.rb:92-94 | a present name replaces `format` by the lookup result (possibly nil); a blank one leaves it |
| Instantiations.Instantiation.SetInstantiationColorName | app/models/instantiation.rb:100-102 | the same rule for the colour |
| Instantiations.Instantiation.SetLanguageTokens | app/models/instantiation.rb:112-114 | present tokens are stored with `;` for `,`; blank ones leave the language |
| Instantiations.Instantiation.SetInstantiationGenerationTokens | app/models/instantiation.rb:117-119 | the comma-split pieces are what is passed to the association writer `instantiation_generation_ids=` |
| Instantiations.Instantiation.GenerateUuid | app/models/instantiation.rb:202-204 | a set, non-empty uuid is kept; otherwise the random one is taken |
| ExtensionNames.SynthesizedDescription | app/models/extension_name.rb:15-25 | the description the hook leaves (definition; the lemmas below state its properties) |
| ExtensionNames.KeepsNonEmptyDescription | app/models/extension_name.rb:16 | a non-empty description is never overwritten |
| ExtensionNames.SynthesisCases | app/models/extension_name.rb:15-25 | an empty or nil description becomes the authority when there is no key, the key when there is no authority, else "key (authority)" |
| ExtensionNames.SynthesisShowsBoth | app/models/extension_name.rb:22 | with both parts the description starts with the key, ends with the parenthesised authority and has no other text |
| ExtensionNames.SynthesisIdempotent | app/models/extension_name.rb:8-25 | running the hook on its own result changes nothing |
| ExtensionNames.ExtensionName.Name | app/models/extension_name.rb:11-13 | `name` is the description |
| ExtensionNames.ExtensionName.SafeToDelete | app/models/extension_name.rb:28-30 | every row is safe to delete |
| ExtensionNames.ExtensionName.SynthesizeDescription | app/models/extension_name.rb:15-25 | the description becomes the synthesised one; key, authority and visibility are untouched |
| ExtensionNames.SaveTwice | app/models/extension_name.rb:8 | two saves leave the description the first save gave, and the key, the authority and `visible` unchanged |
| Creators.Rules | app/models/creator.rb:7-8 | the two `xml_string` declarations, in order (definition) |
| Creators.RuleOrder | app/models/creator.rb:7-8 | two declarations, `creator` before `creatorRole` |
| Creators.Display | app/models/creator.rb:10-12 | without a role the creator itself; with one "role: creator", nil parts as "" |
| Creators.DisplayRecoversCreator | app/models/creator.rb:10-12 | dropping the "role: " prefix gives back the creator text |
| AssetsController.DigitLine | app/controllers/assets_controller.rb:36 | `/^[\d]+$/` on one line: one or more digits and nothing else (definition) |
| AssetsController.ShowLookup | app/controllers/assets_controller.rb:36-40 | a find by id exactly when some line is all digits, with the id unchanged; otherwise a find by the uuid with "urn:uuid:" dropped from each line |
| AssetsController.ShowLookupOfOneLine | app/controllers/assets_controller.rb:36-40 | for a one-line id: all digits finds by id, anything else by uuid with one leading "urn:uuid:" removed |
| AssetsController.ShowLookupOfUrn | app/controllers/assets_controller.rb:39 | "urn:uuid:" followed by a uuid finds that uuid |
| AssetsController.ShowLookupOfLaterDigitLine | app/controllers/assets_controller.rb:36 | an id whose last line is all digits is looked up by id |
| AssetsController.IndexPageOptions | app/controllers/assets_controller.rb:5-6 | per_page is 20; page is 1 when the parameter is missing or "", otherwise the parameter |
| AssetsController.PublicActions | app/controllers/assets_controller.rb:157 | the actions open without a login: index, show, opensearch, toggleannotations (definition) |
| AssetsController.Authorized | app/controllers/assets_controller.rb:156-158 | index, show, opensearch and toggleannotations are open to everyone; any other action needs a login |
| AssetsController.ZipGate | app/controllers/assets_controller.rb:101-113 | refused exactly for a non-admin with no query or a count over 250, with the message of that branch; admins export everything without a query |
| AssetsController.ZipAllowsExactLimit | app/controllers/assets_controller.rb:108 | a non-admin search of exactly 250 results is exported |
| AssetsController.Truthy | app/controllers/assets_controller.rb:74-83 | Ruby truthiness: everything but nil and false (definition) |
| AssetsController.OrAssigned | app/controllers/assets_controller.rb:74 | the result of `h[key] ||= default` (definition) |
| AssetsController.OrAssign | app/controllers/assets_controller.rb:74 | `h[key] ||= d`: the key keeps a truthy value and gets `d` otherwise; every other key keeps its value |
| AssetsController.OrAssignFills | app/controllers/assets_controller.rb:75-83 | one more `||=` on a new key extends the filled defaults by that key |
| AssetsController.AssetDefaults | app/controllers/assets_controller.rb:75-83 | the nine `||=` lines as a table: key and empty default, in source order (definition) |
| AssetsController.AssetDefaultsDistinct | app/controllers/assets_controller.rb:75-83 | no key is defaulted twice |
| AssetsController.AssetDefaultsTruthy | app/controllers/assets_controller.rb:75-83 | every default (`{}` or `[]`) is truthy |
| AssetsController.DefaultsOf | app/controllers/assets_controller.rb:75-83 | the table as a map: every key in it comes from a row with that default |
| AssetsController.DefaultsOfHas | app/controllers/assets_controller.rb:75-83 | with distinct keys, every row is in the map with its own default |
| AssetsController.DefaultsFilled | app/controllers/assets_controller.rb:75-83 | the hash after the `||=` lines: the defaulted keys filled, every other key kept (definition) |
| AssetsController.RowsFilled | app/controllers/assets_controller.rb:75-83 | every row's key present, with its truthy value or its default (definition) |
| AssetsController.FilledRows | app/controllers/assets_controller.rb:75-83 | a hash filled from a table with distinct keys has every row filled |
| AssetsController.RefillChangesNothing | app/controllers/assets_controller.rb:75-83 | with truthy defaults, filling an already filled hash again changes nothing |
| AssetsController.FillDefaults | app/controllers/assets_controller.rb:75-83 | applying `||=` for each row of a table with distinct keys fills exactly those keys, each row's key with its default or its truthy value, and keeps every other key |
| AssetsController.AssetParamMalformed | app/controllers/assets_controller.rb:74-83 | `params[:asset]` is truthy but not a hash, so the nested `[]` raises (definition) |
| AssetsController.OriginalAsset | app/controllers/assets_controller.rb:74 | the asset hash `update` starts from: `params[:asset]` when truthy, else `{}` (definition) |
| AssetsController.UpdateParams | app/controllers/assets_controller.rb:74-83 | fails exactly when `params[:asset]` is a truthy non-hash; otherwise each of the nine listed keys is present, keeping a truthy value and getting `{}` or `[]` when nil, false or missing; other keys and other params are kept |
| AssetsController.FlagSet | app/controllers/assets_controller.rb:147 | the session flag's truthiness: only `true` is set (definition) |
| AssetsController.Session.ToggleAnnotations | app/controllers/assets_controller.rb:146-148 | the flag becomes the negation of its truthiness, and visible is the negation of the new flag |
| AssetsController.ToggleTwice | app/controllers/assets_controller.rb:147-148 | two toggles restore a flag that was set, and restore the truthiness of an unset one; the two visibilities differ |

`UpdateParams` runs the nine `||=` lines of `update` through `FillDefaults`. That method loops over the table `AssetDefaults`, visiting the keys in the same order and applying `||=` with the same values.

## Left out

- The `PbcoreXmlElement` mapping engine: the code that interprets `xml_attributes`, `xml_subelements` and `xml_string` is not part of this model. The declarations are kept as data.
- XML namespaces: the format reader matches children by local name, and the PBCore namespace test of `find_first` is not modelled.
- `to_xml` and everything from `libxml` besides appending a child. In that library an element's content is always a string, so the reader's `elt && elt.content` guard amounts to "an element was found".
- ActiveRecord: associations, nested attributes, validations, `stampable`, persistence, `templates`, `borrowed?`, `current_borrowing`, `online?`, `thumbnail?` and `delete_files`. These are database and storage calls.
- `pretty_file_size`: it formats numbers through a Rails view helper that is not part of this model.
- The getters `format_type`, `format_name`, `instantiation_color_name` and the no-op `format_type=`: each is a nil-safe attribute read or does nothing.
- A Format row without a subclass type (the STI base class): its writer tag would be the name "Format" rewritten, and the model types every format as Physical or Digital. For the same reason `ClassNamed` covers only the two subclass names; Ruby's `constantize` would also accept any other defined constant, such as "Format", which the reader's rewrite never produces.
- Instantiations.NewFromTemplate: the template is given as a value holding its attribute hashes. The copy is returned as a value, so neither the ActiveRecord `find` by id nor object identity is modelled.
- Instantiations.Instantiation.GenerateUuid: the random uuid is a parameter; `UUID.random_create` is not modelled.
- RubyText.RStrip: follows Ruby 1.9, which removes any trailing mix of whitespace and NUL. Ruby 1.8 removes trailing NULs first and then whitespace, so `"x\0 ".strip` is `"x\0"` there; that variant is not modelled.
- Unicode case folding: `/i` is modelled on ASCII letters only, and the patterns are all ASCII.
- AssetsController.ShowLookup: a nil `params[:id]` is not modelled, because the route always supplies one.
- Instantiations.Instantiation.SetInstantiationGenerationTokens: a nil argument is not modelled. Ruby would raise on `nil.split`.
- `ExtensionName#to_json` and `app/models/essence_track_type.rb`: the first is serialisation, and the second is a count over an association.
- The rest of `AssetsController`:
  - rendering, flash messages and redirects;
  - the search and pagination calls;
  - `destroy`, `new`, `edit` and `create`;
  - writing the zip file;
  - `opensearch`.

  These are I/O and framework calls around the decisions modelled here.
