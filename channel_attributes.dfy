/** `ChannelAttributesFactory` and the `ChannelAttributes` value it builds:
    the one channel flag that switches alternative-title documents on. */
module ChannelAttributesFactory {
  import opened Wrappers
  import opened Strings

  /** The channel attribute that carries the flag. */
  const SP_VV_ALTERNATIVE_TITLE := "sp_vv_alternativeTitle"

  /** What the channel's attribute bag holds under a key. */
  datatype AttributeValue = Absent | BoolValue(b: bool) | StringValue(s: string) | OtherValue

  /** `ChannelAttributes`: a single read-only flag. */
  datatype ChannelAttributes = ChannelAttributes(addAlternativeDocuments: bool)

  /** Reading a property of a `ChannelAttributes` object by name: the
      declared property gives its value, any other name gives PHP `null`. */
  function Property(a: ChannelAttributes, name: string): (v: Option<bool>)
    ensures v.Some? <==> name == "addAlternativeDocuments"
  {
    if name == "addAlternativeDocuments" then Some(a.addAlternativeDocuments) else None
  }

  /** `getBool(key)` of the attribute bag: the stored boolean, and `false`
      for an absent key or a value of another type. */
  function GetBool(v: AttributeValue): (b: bool)
    ensures b <==> v == BoolValue(true)
  {
    v.BoolValue? && v.b
  }

  /** `getString(key, default)` of the attribute bag: the stored string, and
      the default for an absent key or a value of another type. */
  function GetString(v: AttributeValue, default: string): (s: string)
    ensures v.StringValue? ==> s == v.s
    ensures !v.StringValue? ==> s == default
  {
    if v.StringValue? then v.s else default
  }

  /** A string reads as `true` ignoring case. */
  predicate IsTrueIgnoringCase(s: string) {
    |s| == 4 &&
    (s[0] == 't' || s[0] == 'T') && (s[1] == 'r' || s[1] == 'R') &&
    (s[2] == 'u' || s[2] == 'U') && (s[3] == 'e' || s[3] == 'E')
  }

  /** Comparing the `strtolower` of a string with `true` is comparing the
      string with `true` ignoring case. */
  lemma LowerIsTrue(s: string)
    ensures ToLower(s) == "true" <==> IsTrueIgnoringCase(s)
  {
    var l := ToLower(s);
    if l == "true" {
      assert LowerChar(s[0]) == 't' && LowerChar(s[1]) == 'r';
      assert LowerChar(s[2]) == 'u' && LowerChar(s[3]) == 'e';
    }
    if IsTrueIgnoringCase(s) {
      assert l[0] == 't' && l[1] == 'r' && l[2] == 'u' && l[3] == 'e';
      assert l == "true";
    }
  }

  /** `create()`: the flag is on exactly for boolean `true` and for the
      strings `true` in any mix of upper and lower case; an absent
      attribute, boolean `false`, any other string and any other value leave
      it off. */
  function Create(v: AttributeValue): (a: ChannelAttributes)
    ensures a.addAlternativeDocuments <==>
      v == BoolValue(true) || (v.StringValue? && IsTrueIgnoringCase(v.s))
  {
    LowerIsTrue(GetString(v, "false"));
    ChannelAttributes(GetBool(v) || ToLower(GetString(v, "false")) == "true")
  }

  /** The cases the factory is known for: absent, `false`, `true`, and the
      string `"TRUE"`. */
  lemma CreateExamples()
    ensures !Create(Absent).addAlternativeDocuments
    ensures !Create(BoolValue(false)).addAlternativeDocuments
    ensures Create(BoolValue(true)).addAlternativeDocuments
    ensures Create(StringValue("TRUE")).addAlternativeDocuments
    ensures !Create(StringValue("yes")).addAlternativeDocuments
  {
    assert IsTrueIgnoringCase("TRUE");
  }
}
