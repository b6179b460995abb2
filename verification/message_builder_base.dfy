/**
 What every message builder shares: reading a required special property out
 of the message data. `MessageBuilderBase` itself is not part of this model;
 its required-property check is modelled as the builders use it: the
 property must be present, and `ThrowIfPropertyIsNullOrEmpty` rejects a
 null or empty value, naming the property.
 */
module MessageBuilderBase {
  import opened Results
  import opened OrderedMap
  import opened Values

  /** `data` holds a value for `name` that is neither null nor empty. */
  predicate Present(data: Entries<Value>, name: string)
  {
    Find(data, name).Some? && !IsNullOrEmpty(Find(data, name).value)
  }

  /** The value of a required property, or the failure that names it. */
  function RequiredProperty(data: Entries<Value>, name: string): (r: Result<Value>)
    ensures r.Ok? <==> Present(data, name)
    ensures r.Ok? ==> Find(data, name) == Some(r.value) && !IsNullOrEmpty(r.value)
    ensures r.Fail? ==> r.error == MissingRequiredProperty(name)
  {
    match Find(data, name)
    case None => Fail(MissingRequiredProperty(name))
    case Some(v) => if IsNullOrEmpty(v) then Fail(MissingRequiredProperty(name)) else Ok(v)
  }
}
