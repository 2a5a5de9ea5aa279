/**
 * Looking a template up in a parsed prompt YAML file, as every prompt
 * builder does with `prompt_yaml.get(key, "")` followed by `if not template_str: raise ValueError`.
 */
module PromptFile {
  import opened Wrappers
  import opened Json

  /**
   * `prompt_yaml.get(key, "")` and the `if not template_str` test: a
   * document that is not a mapping has no `.get` (AttributeError), and a
   * missing, empty or otherwise falsy entry is a ValueError.  Any truthy
   * value gets through, string or not.
   */
  function TemplateValue(doc: Value, key: string): (r: Result<Value>)
    ensures r.Ok? <==> doc.Object? && Lookup(doc.fields, key).Some? && Truthy(Lookup(doc.fields, key).value)
    ensures r.Ok? ==> Lookup(doc.fields, key) == Some(r.value)
    ensures !doc.Object? ==> r == Err("AttributeError")
    ensures doc.Object? && (Lookup(doc.fields, key).None? || !Truthy(Lookup(doc.fields, key).value))
            ==> r == Err("ValueError")
  {
    if !doc.Object? then Err("AttributeError")
    else
      var entry := GetOr(doc.fields, key, Str(""));
      if !Truthy(entry) then Err("ValueError")
      else Ok(entry)
  }

  /** The first `.replace` on the template: only a string has one. */
  function TemplateText(v: Value): (r: Result<string>)
    ensures r.Ok? <==> v.Str?
    ensures r.Ok? ==> v == Str(r.value)
    ensures !v.Str? ==> r == Err("AttributeError")
  {
    if v.Str? then Ok(v.s) else Err("AttributeError")
  }

  /**
   * The template stored under `key`, for a builder whose `.replace` follows
   * the lookup at once: a truthy entry that is not a string fails there.
   */
  function TemplateEntry(doc: Value, key: string): (r: Result<string>)
    ensures r.Ok? <==> doc.Object? && Lookup(doc.fields, key).Some?
                       && Lookup(doc.fields, key).value.Str? && Lookup(doc.fields, key).value.s != ""
    ensures r.Ok? ==> Lookup(doc.fields, key) == Some(Str(r.value))
    ensures doc.Object? && (Lookup(doc.fields, key).None? || !Truthy(Lookup(doc.fields, key).value))
            ==> r == Err("ValueError")
  {
    match TemplateValue(doc, key)
    case Err(e) => Err(e)
    case Ok(v) => TemplateText(v)
  }
}
