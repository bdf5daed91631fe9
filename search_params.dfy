/**
 * `URLSearchParams` as the hooks and the income filters use it: an ordered list
 * of name/value entries with `get` and `set`. Percent-encoding on serialisation
 * is not part of this model.
 */
module SearchParams {
  import opened Wrappers

  datatype Entry = Entry(name: string, value: string)

  /** `ps[k]` is the first entry named `name`. */
  predicate FirstNamed(ps: seq<Entry>, name: string, k: int) {
    0 <= k < |ps| && ps[k].name == name && forall j :: 0 <= j < k ==> ps[j].name != name
  }

  /** `params.get(name)`: the value of the first entry with that name. */
  function Get(ps: seq<Entry>, name: string): (r: Option<string>)
    ensures r.None? <==> forall e :: e in ps ==> e.name != name
    ensures r.Some? ==> Entry(name, r.value) in ps
    ensures r.Some? ==> exists k :: FirstNamed(ps, name, k) && ps[k].value == r.value
  {
    if ps == [] then None
    else if ps[0].name == name then
      assert FirstNamed(ps, name, 0);
      Some(ps[0].value)
    else
      var r := Get(ps[1..], name);
      assert forall e :: e in ps <==> e == ps[0] || e in ps[1..];
      FirstNamedStep(ps, name, r);
      r
  }

  /** Past a first entry of another name, the first entry named `name` moves one place on. */
  lemma FirstNamedStep(ps: seq<Entry>, name: string, r: Option<string>)
    requires ps != [] && ps[0].name != name
    requires r.Some? ==> exists k :: FirstNamed(ps[1..], name, k) && ps[1..][k].value == r.value
    ensures r.Some? ==> exists k :: FirstNamed(ps, name, k) && ps[k].value == r.value
  {
    if r.Some? {
      var k :| FirstNamed(ps[1..], name, k) && ps[1..][k].value == r.value;
      assert FirstNamed(ps, name, k + 1);
    }
  }

  /** Entries with names other than `name`, in order. */
  function Without(ps: seq<Entry>, name: string): (r: seq<Entry>)
    ensures forall e :: e in r <==> e in ps && e.name != name
  {
    if ps == [] then []
    else
      var rest := Without(ps[1..], name);
      assert forall e :: e in ps <==> e == ps[0] || e in ps[1..];
      if ps[0].name == name then rest else [ps[0]] + rest
  }

  /**
   * `params.set(name, value)`: the first entry with that name takes the value and
   * later ones are dropped; without one, the entry is appended.
   */
  function Set(ps: seq<Entry>, name: string, value: string): seq<Entry> {
    if ps == [] then [Entry(name, value)]
    else if ps[0].name == name then [Entry(name, value)] + Without(ps[1..], name)
    else [ps[0]] + Set(ps[1..], name, value)
  }

  lemma {:induction false} GetWithout(ps: seq<Entry>, name: string, other: string)
    requires other != name
    ensures Get(Without(ps, name), other) == Get(ps, other)
  {
    if ps != [] {
      GetWithout(ps[1..], name, other);
      var rest := Without(ps[1..], name);
      if ps[0].name != name {
        assert ([ps[0]] + rest)[0] == ps[0];
        assert ([ps[0]] + rest)[1..] == rest;
      }
    }
  }

  /** After `set`, `get` of that name gives the new value and every other name is unaffected. */
  lemma {:induction false} SetThenGet(ps: seq<Entry>, name: string, value: string, other: string)
    ensures Get(Set(ps, name, value), name) == Some(value)
    ensures other != name ==> Get(Set(ps, name, value), other) == Get(ps, other)
  {
    if ps == [] {
    } else if ps[0].name == name {
      var r := [Entry(name, value)] + Without(ps[1..], name);
      assert r[0] == Entry(name, value) && r[1..] == Without(ps[1..], name);
      if other != name {
        GetWithout(ps[1..], name, other);
      }
    } else {
      SetThenGet(ps[1..], name, value, other);
      var r := [ps[0]] + Set(ps[1..], name, value);
      assert r[0] == ps[0] && r[1..] == Set(ps[1..], name, value);
    }
  }

  /** Setting a new name appends one entry at the end. */
  lemma {:induction false} SetNewAppends(ps: seq<Entry>, name: string, value: string)
    requires forall e :: e in ps ==> e.name != name
    ensures Set(ps, name, value) == ps + [Entry(name, value)]
  {
    if ps != [] {
      assert ps[0] in ps;
      assert forall e :: e in ps[1..] ==> e in ps;
      SetNewAppends(ps[1..], name, value);
      assert ps == [ps[0]] + ps[1..];
    }
  }

  /** The names present, in order. */
  function Names(ps: seq<Entry>): (r: seq<string>)
    ensures |r| == |ps| && forall i :: 0 <= i < |ps| ==> r[i] == ps[i].name
  {
    seq(|ps|, i requires 0 <= i < |ps| => ps[i].name)
  }

  /** One entry for a value that is kept, none otherwise. */
  function EntryIf(name: string, value: Option<string>): (r: seq<Entry>)
    ensures value.None? ==> r == []
    ensures value.Some? ==> r == [Entry(name, value.value)]
  {
    if value.Some? then [Entry(name, value.value)] else []
  }

  /** Reading one kept entry back. */
  lemma GetEntryIf(name: string, value: Option<string>, other: string)
    ensures Get(EntryIf(name, value), other) == if other == name then value else None
  {
    if value.Some? {
      assert EntryIf(name, value)[1..] == [];
    }
  }

  /** `if (value kept) params.set(name, value)` for a name not yet present. */
  method SetWhen(params: seq<Entry>, name: string, value: Option<string>) returns (r: seq<Entry>)
    requires forall e :: e in params ==> e.name != name
    ensures r == params + EntryIf(name, value)
  {
    r := params;
    if value.Some? {
      SetNewAppends(params, name, value.value);
      r := Set(params, name, value.value);
    }
  }

  /** `get` on a concatenation looks in the first part before the second. */
  lemma {:induction false} GetConcat(a: seq<Entry>, b: seq<Entry>, name: string)
    ensures Get(a + b, name) == Get(a, name).Or(Get(b, name))
  {
    if a != [] {
      assert (a + b)[0] == a[0];
      assert (a + b)[1..] == a[1..] + b;
      GetConcat(a[1..], b, name);
    } else {
      assert a + b == b;
    }
  }
}
