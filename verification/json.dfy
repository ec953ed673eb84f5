/**
 * JSON values: message bodies and schema dictionaries are Python `dict`s of JSON data.
 * A lookup that would raise `KeyError` (or index into a non-dict) yields `None`;
 * `SetPath` is Python's `d[k1]...[kn] = v` on nested dicts.
 */
module Json {
  import opened Wrappers

  datatype Json =
    | Null
    | Bool(b: bool)
    | Num(n: int)
    | Str(s: string)
    | Arr(items: seq<Json>)
    | Obj(fields: map<string, Json>)

  /** Python truthiness: `None`, `False`, zero and empty strings, lists and dicts are false. */
  predicate IsTruthy(j: Json) {
    match j
    case Null => false
    case Bool(b) => b
    case Num(n) => n != 0
    case Str(s) => s != ""
    case Arr(items) => items != []
    case Obj(fields) => fields != map[]
  }

  /** `d[key]` */
  function Get(j: Json, key: string): Option<Json> {
    if j.Obj? && key in j.fields then Some(j.fields[key]) else None
  }

  /** `d[p0][p1]...` */
  function GetPath(j: Json, path: seq<string>): Option<Json>
    decreases |path|
  {
    if path == [] then Some(j)
    else
      var child :- Get(j, path[0]);
      GetPath(child, path[1..])
  }

  /** A path lookup is a first step followed by the rest of the path. */
  lemma GetPathCons(j: Json, key: string, rest: seq<string>)
    ensures GetPath(j, [key] + rest) == if Get(j, key).Some? then GetPath(Get(j, key).value, rest) else None
  {
    assert ([key] + rest)[1..] == rest;
  }

  /** `d[p0]...[pn] = v` is possible: every dict on the way exists. */
  predicate CanSet(j: Json, path: seq<string>)
    decreases |path|
  {
    && |path| > 0
    && j.Obj?
    && (|path| == 1 || (path[0] in j.fields && CanSet(j.fields[path[0]], path[1..])))
  }

  /** An assignment is possible when the first dict exists and the rest of the path can be assigned. */
  lemma CanSetCons(j: Json, key: string, rest: seq<string>)
    requires j.Obj? && key in j.fields && CanSet(j.fields[key], rest)
    ensures CanSet(j, [key] + rest)
  {
    assert ([key] + rest)[1..] == rest;
  }

  /** `d[p0]...[pn] = v`, on a copy: `d` itself is a value. */
  function SetPath(j: Json, path: seq<string>, v: Json): Json
    requires CanSet(j, path)
    decreases |path|
  {
    if |path| == 1 then Obj(j.fields[path[0] := v])
    else Obj(j.fields[path[0] := SetPath(j.fields[path[0]], path[1..], v)])
  }

  /** Two paths that branch apart: neither is a prefix of the other. */
  predicate Apart(p: seq<string>, q: seq<string>) {
    !(p <= q) && !(q <= p)
  }

  /** Two paths that differ at position `i` branch apart, even once the last step is dropped. */
  lemma ApartAt(p: seq<string>, q: seq<string>, i: nat)
    requires i < |p| && i < |q| && p[i] != q[i]
    ensures Apart(p, q)
    ensures i < |q| - 1 ==> !(p <= q[..|q| - 1])
    ensures i < |p| - 1 ==> !(q <= p[..|p| - 1])
  {
  }

  /** After an assignment, the assigned path reads back the assigned value. */
  lemma {:induction false} GetSetSame(j: Json, p: seq<string>, v: Json)
    requires CanSet(j, p)
    ensures GetPath(SetPath(j, p, v), p) == Some(v)
    decreases |p|
  {
    if |p| > 1 {
      GetSetSame(j.fields[p[0]], p[1..], v);
    }
  }

  /** An assignment leaves every path that branches away from it as it was. */
  lemma {:induction false} GetSetApart(j: Json, p: seq<string>, q: seq<string>, v: Json)
    requires CanSet(j, p) && Apart(p, q)
    ensures GetPath(SetPath(j, p, v), q) == GetPath(j, q)
    decreases |p|
  {
    assert q != [];
    if p[0] == q[0] {
      assert |p| == 1 ==> p <= q;
      assert p[1..] <= q[1..] ==> p <= q;
      assert q[1..] <= p[1..] ==> q <= p;
      GetSetApart(j.fields[p[0]], p[1..], q[1..], v);
    }
  }

  /** An assignment does not remove the dicts that a later assignment goes through. */
  lemma {:induction false} SetKeepsCanSet(j: Json, p: seq<string>, v: Json, q: seq<string>)
    requires CanSet(j, p) && CanSet(j, q)
    requires !(p <= q[..|q| - 1])
    ensures CanSet(SetPath(j, p, v), q)
    decreases |p|
  {
    if |q| > 1 && p[0] == q[0] {
      var parent, rest := q[..|q| - 1], q[1..][..|q| - 2];
      assert |p| == 1 ==> p <= parent;
      assert p[1..] <= rest ==> p <= parent;
      SetKeepsCanSet(j.fields[p[0]], p[1..], v, q[1..]);
    }
  }

  /** A JSON array of strings: `['a', 'b']`. */
  function Names(xs: seq<string>): (r: Json)
    ensures r.Arr? && |r.items| == |xs|
    ensures forall i :: 0 <= i < |xs| ==> r.items[i] == Str(xs[i])
  {
    Arr(seq(|xs|, i requires 0 <= i < |xs| => Str(xs[i])))
  }

  /** The `required` list of a schema object (empty when there is none). */
  function Required(schema: Json): seq<Json> {
    match GetPath(schema, ["required"])
    case Some(Arr(items)) => items
    case _ => []
  }

  /** A body has every top-level key its schema's `required` list names. */
  ghost predicate MeetsRequired(schema: Json, body: Json) {
    && body.Obj?
    && forall i :: 0 <= i < |Required(schema)| && Required(schema)[i].Str? ==>
         Required(schema)[i].s in body.fields
  }

  /** The body cut down to the given keys. */
  function Restrict(body: Json, keys: set<string>): Json {
    if body.Obj? then Obj(map k | k in body.fields && k in keys :: body.fields[k]) else body
  }

  ghost function RequiredKeys(schema: Json): set<string> {
    set i | 0 <= i < |Required(schema)| && Required(schema)[i].Str? :: Required(schema)[i].s
  }

  /**
   * Additive evolution: when the newer schema only appends to the older one's `required` list,
   * every payload meeting the newer list meets the older one, and so does that payload cut down
   * to the older list's keys.
   */
  lemma AdditiveRequired(older: Json, newer: Json, body: Json)
    requires exists extra :: Required(newer) == Required(older) + extra
    requires MeetsRequired(newer, body)
    ensures MeetsRequired(older, body)
    ensures MeetsRequired(older, Restrict(body, RequiredKeys(older)))
  {
    var extra :| Required(newer) == Required(older) + extra;
    var r := Required(older);
    forall i | 0 <= i < |r| && r[i].Str? ensures r[i].s in body.fields {
      assert Required(newer)[i] == r[i];
    }
    var cut := Restrict(body, RequiredKeys(older));
    forall i | 0 <= i < |r| && r[i].Str? ensures r[i].s in cut.fields {
      assert r[i].s in RequiredKeys(older);
    }
  }

  /** A schema whose `required` list extends the older one's accepts only payloads the older one accepts. */
  lemma AppendedRequiredAccepted(older: Json, newer: Json, extra: seq<Json>)
    requires Required(newer) == Required(older) + extra
    ensures forall body :: MeetsRequired(newer, body) ==> MeetsRequired(older, body)
  {
    forall body | MeetsRequired(newer, body) ensures MeetsRequired(older, body) {
      AdditiveRequired(older, newer, body);
    }
  }
}
