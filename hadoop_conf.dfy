/**
 * The parts of Hadoop's Configuration and java.lang.String that the import
 * job relies on: reading a key with a default, String.trim,
 * String.equalsIgnoreCase and Configuration.getBoolean.
 */
module HadoopConf {
  import opened Wrappers

  /** A configuration's key/value entries. */
  type Props = map<string, string>

  /** Configuration.get(name): the stored value, or null (None) when unset. */
  function Get(props: Props, name: string): (r: Option<string>)
    ensures r.Some? <==> name in props
    ensures r.Some? ==> r.value == props[name]
  {
    if name in props then Some(props[name]) else None
  }

  /** Configuration.get(name, defaultValue). */
  function GetOrDefault(props: Props, name: string, defaultValue: string): (r: string)
    ensures name !in props ==> r == defaultValue
    ensures name in props ==> r == props[name]
  {
    match Get(props, name)
    case Some(v) => v
    case None => defaultValue
  }

  /** The characters String.trim removes from both ends: every char up to U+0020. */
  predicate IsTrimmable(c: char) {
    c <= ' '
  }

  /** The string with its leading trimmable characters removed. */
  function TrimLeading(s: string): (r: string)
    ensures |r| <= |s| && r == s[|s| - |r|..]
    ensures forall i :: 0 <= i < |s| - |r| ==> IsTrimmable(s[i])
    ensures r == [] || !IsTrimmable(r[0])
  {
    if s != [] && IsTrimmable(s[0]) then TrimLeading(s[1..]) else s
  }

  /** The string with its trailing trimmable characters removed. */
  function TrimTrailing(s: string): (r: string)
    ensures |r| <= |s| && r == s[..|r|]
    ensures forall i :: |r| <= i < |s| ==> IsTrimmable(s[i])
    ensures r == [] || !IsTrimmable(r[|r| - 1])
  {
    if s != [] && IsTrimmable(s[|s| - 1]) then TrimTrailing(s[..|s| - 1]) else s
  }

  /** String.trim. */
  function Trim(s: string): (r: string)
    ensures |r| <= |s|
    ensures r == [] || (!IsTrimmable(r[0]) && !IsTrimmable(r[|r| - 1]))
  {
    TrimTrailing(TrimLeading(s))
  }

  /** Only trimmable characters. */
  predicate AllTrimmable(s: string) {
    forall i :: 0 <= i < |s| ==> IsTrimmable(s[i])
  }

  lemma {:induction false} TrimLeadingPadding(pad: string, t: string)
    requires AllTrimmable(pad)
    requires t == [] || !IsTrimmable(t[0])
    ensures TrimLeading(pad + t) == t
  {
    if pad != [] {
      assert (pad + t)[1..] == pad[1..] + t;
      TrimLeadingPadding(pad[1..], t);
    }
  }

  lemma {:induction false} TrimTrailingPadding(t: string, pad: string)
    requires AllTrimmable(pad)
    requires t == [] || !IsTrimmable(t[|t| - 1])
    ensures TrimTrailing(t + pad) == t
  {
    if pad != [] {
      var shorter := pad[..|pad| - 1];
      assert (t + pad)[..|t + pad| - 1] == t + shorter;
      TrimTrailingPadding(t, shorter);
    }
  }

  /** Trimming ignores any amount of padding around a word with no padding of its own. */
  lemma TrimPadded(before: string, word: string, after: string)
    requires AllTrimmable(before) && AllTrimmable(after)
    requires word == [] || (!IsTrimmable(word[0]) && !IsTrimmable(word[|word| - 1]))
    ensures Trim(before + word + after) == word
  {
    if word == [] {
      assert before + word + after == before + after;
      TrimLeadingPadding(before + after, []);
      assert before + after + [] == before + after;
    } else {
      assert before + word + after == before + (word + after);
      TrimLeadingPadding(before, word + after);
      TrimTrailingPadding(word, after);
    }
  }

  /** Character.toLowerCase restricted to ASCII letters. */
  function ToLowerAscii(c: char): (r: char)
    ensures 'A' <= c <= 'Z' ==> r as int == c as int + 32
    ensures !('A' <= c <= 'Z') ==> r == c
  {
    if 'A' <= c <= 'Z' then (c as int + 32) as char else c
  }

  /** String.equalsIgnoreCase, with case folding limited to ASCII letters. */
  predicate EqualsIgnoreCase(a: string, b: string) {
    |a| == |b| && forall i :: 0 <= i < |a| ==> ToLowerAscii(a[i]) == ToLowerAscii(b[i])
  }

  /**
   * Configuration.getBoolean(name, defaultValue): the trimmed value when it is
   * "true" or "false" in any letter case, otherwise the default.
   */
  function GetBoolean(props: Props, name: string, defaultValue: bool): (r: bool)
    ensures name !in props ==> r == defaultValue
    ensures r != defaultValue ==>
      name in props && EqualsIgnoreCase(if r then "true" else "false", Trim(props[name]))
    ensures name in props && EqualsIgnoreCase("true", Trim(props[name])) ==> r
    ensures name in props && EqualsIgnoreCase("false", Trim(props[name])) ==> !r
  {
    match Get(props, name)
    case None => defaultValue
    case Some(raw) =>
      var v := Trim(raw);
      if v == "" then defaultValue
      else if EqualsIgnoreCase("true", v) then true
      else if EqualsIgnoreCase("false", v) then false
      else defaultValue
  }

  /** A padded "true" in any letter case reads as true whatever the default. */
  lemma GetBooleanPaddedTrue(props: Props, name: string, before: string, word: string, after: string, defaultValue: bool)
    requires AllTrimmable(before) && AllTrimmable(after)
    requires EqualsIgnoreCase("true", word)
    requires name in props && props[name] == before + word + after
    ensures GetBoolean(props, name, defaultValue)
  {
    assert !IsTrimmable(word[0]) && !IsTrimmable(word[|word| - 1]) by {
      assert ToLowerAscii(word[0]) == 't' && ToLowerAscii(word[3]) == 'e';
    }
    TrimPadded(before, word, after);
  }
}
