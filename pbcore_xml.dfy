/** What the record models hand to the PBCore mapping engine: the mapping
    declarations, kept as data in the order they are written, and the XML
    element under construction that the custom hooks append to.  The engine
    that interprets the declarations is not part of this model. */
module PbcoreXml {
  import opened RubyText

  /** One mapping declaration. */
  datatype Rule =
    /** `xml_attributes "a", "b", ...`: record fields written as attributes of the record's element. */
    | XmlAttributes(names: seq<string>)
    /** `xml_subelements "tag", :association`: one child element per associated record. */
    | XmlSubelements(element: string, association: string)
    /** `xml_string "tag", :field, {"attr" => :field}, ...`; `field` is None when the declaration names none. */
    | XmlString(element: string, field: Option<string>, decorators: seq<(string, string)>)
    /** `to_xml_elt do ... end`: a hook run while serialising, named after what it writes. */
    | ToXmlHook(hook: string)
    /** `from_xml_elt do ... end`: a hook run while parsing. */
    | FromXmlHook(hook: string)

  /** A child element as the hooks see it: its tag, its attributes and its text content. */
  datatype Node = Node(name: string, attributes: map<string, string>, content: string)

  /** The element being built for a record (`_working_xml`): hooks read its children and append to them. */
  class XmlElement {
    var name: string
    var attributes: map<string, string>
    var children: seq<Node>

    constructor (name: string, children: seq<Node>)
      ensures this.name == name && attributes == map[] && this.children == children
    {
      this.name := name;
      attributes := map[];
      this.children := children;
    }

    /** `xml << node`. */
    method Append(node: Node)
      modifies this
      ensures children == old(children) + [node]
      ensures name == old(name) && attributes == old(attributes)
    {
      children := children + [node];
    }
  }
}
