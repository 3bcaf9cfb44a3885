/**
 * The error tables of the administrator's forms: each check leaves a
 * message or nothing under its field, and the table that is shown keeps
 * only the fields that hold a message.
 */
module FormErrors {
  import opened Wrappers

  /** The message a table holds for a field, if any. */
  function Field<K>(errors: map<K, string>, key: K): (r: Option<string>)
    ensures r.Some? <==> key in errors
  {
    if key in errors then Some(errors[key]) else None
  }

  /**
   * `Object.entries(newErrors).reduce(...)`: walking the checked fields in
   * order, the table keeps a field exactly when its check left a message,
   * and keeps that message.
   */
  method KeepMessages<K(==)>(keys: seq<K>, entry: K -> Option<string>) returns (errors: map<K, string>)
    ensures forall k :: Field(errors, k) == if k in keys then entry(k) else None
    ensures errors == map[] <==> forall i :: 0 <= i < |keys| ==> entry(keys[i]).None?
  {
    errors := map[];
    for n := 0 to |keys|
      invariant forall k :: Field(errors, k) == if k in keys[..n] then entry(k) else None
    {
      assert keys[..n + 1] == keys[..n] + [keys[n]];
      if entry(keys[n]).Some? {
        errors := errors[keys[n] := entry(keys[n]).value];
      }
    }
    assert keys[..|keys|] == keys;
    if errors == map[] {
      forall i | 0 <= i < |keys| ensures entry(keys[i]).None? {
        assert Field(errors, keys[i]).None?;
      }
    } else {
      var k :| k in errors;
      assert Field(errors, k).Some?;
    }
  }
}
