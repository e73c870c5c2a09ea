/** Creator: a person or body credited on an asset, with an optional role. */
module Creators {
  import opened RubyText
  import opened PbcoreXml

  datatype CreatorRole = CreatorRole(name: Option<string>)

  datatype Creator = Creator(creator: Option<string>, creatorRole: Option<CreatorRole>)

  /** `xml_string "creator"` then `xml_string "creatorRole"`, neither naming a field. */
  const Rules: seq<Rule> := [XmlString("creator", None, []), XmlString("creatorRole", None, [])]

  /** Exactly two declarations, the creator's before its role's. */
  lemma RuleOrder()
    ensures |Rules| == 2
    ensures Rules[0].XmlString? && Rules[0].element == "creator"
    ensures Rules[1].XmlString? && Rules[1].element == "creatorRole"
  {
  }

  /** `to_s`: the creator text, prefixed with "role: " when there is a role
      (nil parts are interpolated as ""). */
  function Display(c: Creator): (r: Option<string>)
    ensures c.creatorRole.None? ==> r == c.creator
    ensures c.creatorRole.Some? ==> r.Some?
    ensures c.creatorRole.Some? ==> StartsWith(r.value, Text(c.creatorRole.value.name) + ": ")
    ensures c.creatorRole.Some? ==> EndsWith(r.value, Text(c.creator))
    ensures c.creatorRole.Some? ==> |r.value| == |Text(c.creatorRole.value.name)| + 2 + |Text(c.creator)|
  {
    if c.creatorRole.None? then c.creator
    else
      var s := Text(c.creatorRole.value.name) + ": " + Text(c.creator);
      assert s[..|Text(c.creatorRole.value.name)| + 2] == Text(c.creatorRole.value.name) + ": ";
      Some(s)
  }

  /** The creator text can be read back from a role-prefixed display by dropping the prefix. */
  lemma DisplayRecoversCreator(c: Creator)
    requires c.creatorRole.Some?
    ensures Display(c).value[|Text(c.creatorRole.value.name)| + 2..] == Text(c.creator)
  {
  }
}
