/** ExtensionName: the table of PBCore extension keys and authorities kept for
    the user interface.  Its description is synthesised before every save. */
module ExtensionNames {
  import opened RubyText

  /** The description `synthesize_description` leaves: a non-empty one is kept; an empty or
      nil one becomes the authority, the key, or "key (authority)", by which of them are nil. */
  function SynthesizedDescription(description: Option<string>, key: Option<string>, authority: Option<string>): Option<string> {
    if description.None? || description.value == [] then
      if key.None? then authority
      else if authority.None? then key
      else Some(key.value + " (" + authority.value + ")")
    else description
  }

  /** A non-empty description is never overwritten. */
  lemma KeepsNonEmptyDescription(description: string, key: Option<string>, authority: Option<string>)
    requires description != []
    ensures SynthesizedDescription(Some(description), key, authority) == Some(description)
  {
  }

  /** The four-way rule for an empty or nil description. */
  lemma SynthesisCases(description: Option<string>, key: Option<string>, authority: Option<string>)
    requires description.None? || description == Some("")
    ensures key.None? ==> SynthesizedDescription(description, key, authority) == authority
    ensures key.Some? && authority.None? ==> SynthesizedDescription(description, key, authority) == key
    ensures key.Some? && authority.Some? ==>
      SynthesizedDescription(description, key, authority) == Some(key.value + " (" + authority.value + ")")
  {
  }

  /** With both parts, the description starts with the key and ends with the authority in parentheses. */
  lemma SynthesisShowsBoth(description: Option<string>, key: string, authority: string)
    requires description.None? || description == Some("")
    ensures var d := SynthesizedDescription(description, Some(key), Some(authority));
      d.Some? && StartsWith(d.value, key + " (") && EndsWith(d.value, authority + ")")
      && |d.value| == |key| + |authority| + 3
  {
    var d := key + " (" + authority + ")";
    assert d[..|key| + 2] == key + " (";
    assert d[|d| - |authority| - 1..] == authority + ")";
  }

  /** Running the hook a second time changes nothing. */
  lemma SynthesisIdempotent(description: Option<string>, key: Option<string>, authority: Option<string>)
    ensures var once := SynthesizedDescription(description, key, authority);
      SynthesizedDescription(once, key, authority) == once
  {
  }

  class ExtensionName {
    var extensionKey: Option<string>
    var extensionAuthority: Option<string>
    var description: Option<string>
    var visible: Option<bool>

    constructor (key: Option<string>, authority: Option<string>, description: Option<string>, visible: Option<bool>)
      ensures extensionKey == key && extensionAuthority == authority
      ensures this.description == description && this.visible == visible
    {
      extensionKey, extensionAuthority := key, authority;
      this.description, this.visible := description, visible;
    }

    /** `name` is the description. */
    function Name(): (r: Option<string>)
      reads this
      ensures r == description
    {
      description
    }

    /** `safe_to_delete?` holds of every row. */
    function SafeToDelete(): (r: bool)
      ensures r
    {
      true
    }

    /** The `before_save` hook: fill an empty description and touch nothing else. */
    method SynthesizeDescription()
      modifies this`description
      ensures description == SynthesizedDescription(old(description), extensionKey, extensionAuthority)
      ensures extensionKey == old(extensionKey) && extensionAuthority == old(extensionAuthority)
      ensures visible == old(visible)
    {
      if description.None? || description.value == [] {
        if extensionKey.None? {
          description := extensionAuthority;
        } else if extensionAuthority.None? {
          description := extensionKey;
        } else {
          description := Some(extensionKey.value + " (" + extensionAuthority.value + ")");
        }
      }
    }
  }

  /** Saving twice leaves the description the first save gave it. */
  method SaveTwice(e: ExtensionName)
    modifies e`description
    ensures e.description == SynthesizedDescription(old(e.description), old(e.extensionKey), old(e.extensionAuthority))
    ensures e.extensionKey == old(e.extensionKey) && e.extensionAuthority == old(e.extensionAuthority)
    ensures e.visible == old(e.visible)
  {
    e.SynthesizeDescription();
    e.SynthesizeDescription();
    SynthesisIdempotent(old(e.description), e.extensionKey, e.extensionAuthority);
  }
}
