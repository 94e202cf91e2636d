/** The two ways a model merges nested configurations: the one that refuses to change a value (for the
  * run config that cannot change once set), and the one where the newer value wins (for the state file).
  */
module ConfigMerge {

  import opened Wrappers

  /** A JSON-like value: a leaf, told apart by its identity, or a dictionary. */
  datatype Value = Atom(id: int) | Dict(entries: map<string, Value>)

  type Path = seq<string>

  // ---------- The order of what is said ----------

  /** `y` says all that `x` says. */
  ghost predicate Leq(x: Value, y: Value) {
    if x.Dict? && y.Dict?
    then forall k :: k in x.entries ==> k in y.entries && Leq(x.entries[k], y.entries[k])
    else x == y
  }

  lemma {:induction false} LeqReflexive(x: Value)
    ensures Leq(x, x)
  {
    if x.Dict? {
      forall k | k in x.entries
        ensures Leq(x.entries[k], x.entries[k])
      {
        LeqReflexive(x.entries[k]);
      }
    }
  }

  lemma {:induction false} LeqTransitive(x: Value, y: Value, z: Value)
    requires Leq(x, y) && Leq(y, z)
    ensures Leq(x, z)
  {
    if x.Dict? && z.Dict? {
      forall k | k in x.entries
        ensures k in z.entries && Leq(x.entries[k], z.entries[k])
      {
        LeqTransitive(x.entries[k], y.entries[k], z.entries[k]);
      }
    }
  }

  lemma {:induction false} LeqAntisymmetric(x: Value, y: Value)
    requires Leq(x, y) && Leq(y, x)
    ensures x == y
  {
    if x.Dict? {
      forall k | k in x.entries
        ensures x.entries[k] == y.entries[k]
      {
        LeqAntisymmetric(x.entries[k], y.entries[k]);
      }
      assert x.entries == y.entries;
    }
  }

  // ---------- The merge that refuses to change a value ----------

  function Join(x: Value, y: Value): Option<Value> {
    if x.Dict? && y.Dict? then
      if forall k :: k in x.entries && k in y.entries ==> Join(x.entries[k], y.entries[k]).Some? then
        Some(Dict(map k | k in x.entries.Keys + y.entries.Keys ::
          if k !in y.entries then x.entries[k]
          else if k !in x.entries then y.entries[k]
          else Join(x.entries[k], y.entries[k]).value))
      else None
    else if x == y then Some(x)
    else None
  }

  /** A merge that succeeds is the least value above both. */
  lemma {:induction false} JoinIsLeast(x: Value, y: Value, u: Value)
    requires Join(x, y).Some?
    ensures Leq(x, Join(x, y).value) && Leq(y, Join(x, y).value)
    ensures Leq(x, u) && Leq(y, u) ==> Leq(Join(x, y).value, u)
  {
    if x.Dict? && y.Dict? {
      var z := Join(x, y).value;
      forall k | k in z.entries
        ensures k in x.entries ==> Leq(x.entries[k], z.entries[k])
        ensures k in y.entries ==> Leq(y.entries[k], z.entries[k])
        ensures Leq(x, u) && Leq(y, u) ==> u.Dict? && k in u.entries && Leq(z.entries[k], u.entries[k])
      {
        if k in x.entries && k in y.entries {
          var w := if u.Dict? && k in u.entries then u.entries[k] else u;
          JoinIsLeast(x.entries[k], y.entries[k], w);
        } else {
          LeqReflexive(z.entries[k]);
        }
      }
    } else {
      LeqReflexive(x);
    }
  }

  /** It fails only where no value is above both. */
  lemma {:induction false} BoundedJoins(x: Value, y: Value, u: Value)
    requires Leq(x, u) && Leq(y, u)
    ensures Join(x, y).Some?
  {
    if x.Dict? && y.Dict? {
      forall k | k in x.entries && k in y.entries
        ensures Join(x.entries[k], y.entries[k]).Some?
      {
        BoundedJoins(x.entries[k], y.entries[k], u.entries[k]);
      }
    }
  }

  lemma JoinIdempotent(x: Value)
    ensures Join(x, x) == Some(x)
  {
    LeqReflexive(x);
    BoundedJoins(x, x, x);
    JoinIsLeast(x, x, x);
    LeqAntisymmetric(x, Join(x, x).value);
  }

  lemma JoinCommutative(x: Value, y: Value)
    ensures Join(x, y) == Join(y, x)
  {
    if Join(x, y).Some? {
      JoinIsLeast(x, y, Join(x, y).value);
      BoundedJoins(y, x, Join(x, y).value);
    }
    if Join(y, x).Some? {
      JoinIsLeast(y, x, Join(y, x).value);
      BoundedJoins(x, y, Join(y, x).value);
      JoinIsLeast(x, y, Join(y, x).value);
      JoinIsLeast(y, x, Join(x, y).value);
      LeqAntisymmetric(Join(x, y).value, Join(y, x).value);
    }
  }

  function Then(x: Option<Value>, y: Value): Option<Value> {
    match x
    case None => None
    case Some(v) => Join(v, y)
  }

  /** `u` is above all three exactly when it is above the merge of two and the third. */
  lemma ThreeBounds(x: Value, y: Value, z: Value, u: Value)
    requires Then(Join(x, y), z).Some?
    ensures var j := Then(Join(x, y), z).value;
      && Leq(x, j) && Leq(y, j) && Leq(z, j)
      && (Leq(x, u) && Leq(y, u) && Leq(z, u) ==> Leq(j, u))
  {
    hide Join, Leq;
    var v := Join(x, y).value;
    var j := Join(v, z).value;
    JoinIsLeast(x, y, u);
    JoinIsLeast(v, z, u);
    LeqTransitive(x, v, j);
    LeqTransitive(y, v, j);
  }

  lemma ThreeJoin(x: Value, y: Value, z: Value, u: Value)
    requires Leq(x, u) && Leq(y, u) && Leq(z, u)
    ensures Then(Join(x, y), z).Some?
  {
    hide Join, Leq;
    BoundedJoins(x, y, u);
    JoinIsLeast(x, y, u);
    BoundedJoins(Join(x, y).value, z, u);
  }

  /** Merging is associative, in where it fails as well as in what it gives. */
  lemma JoinAssociative(x: Value, y: Value, z: Value)
    ensures Then(Join(x, y), z) == Then(Join(y, z), x)
  {
    hide Join, Leq;
    if Then(Join(x, y), z).Some? {
      var j := Then(Join(x, y), z).value;
      ThreeBounds(x, y, z, j);
      ThreeJoin(y, z, x, j);
    }
    if Then(Join(y, z), x).Some? {
      var j := Then(Join(y, z), x).value;
      ThreeBounds(y, z, x, j);
      ThreeJoin(x, y, z, j);
      ThreeBounds(x, y, z, j);
      ThreeBounds(y, z, x, Then(Join(x, y), z).value);
      LeqAntisymmetric(Then(Join(x, y), z).value, j);
    }
  }

  // ---------- Where a merge fails ----------

  function Lookup(x: Value, path: Path): Option<Value> {
    if path == [] then Some(x)
    else if x.Dict? && path[0] in x.entries then Lookup(x.entries[path[0]], path[1..])
    else None
  }

  /** Both sides have a value here, the values differ, and they are not two dictionaries. */
  predicate Conflict(x: Value, y: Value, path: Path) {
    && Lookup(x, path).Some? && Lookup(y, path).Some?
    && Lookup(x, path) != Lookup(y, path)
    && !(Lookup(x, path).value.Dict? && Lookup(y, path).value.Dict?)
  }

  lemma ConflictInside(x: Value, y: Value, k: string, path: Path)
    requires x.Dict? && y.Dict? && k in x.entries && k in y.entries
    ensures Conflict(x, y, [k] + path) == Conflict(x.entries[k], y.entries[k], path)
  {
    assert ([k] + path)[1..] == path;
  }

  lemma {:induction false} ConflictFails(x: Value, y: Value, path: Path)
    requires Conflict(x, y, path)
    ensures Join(x, y).None?
  {
    if path == [] {
    } else {
      assert path == [path[0]] + path[1..];
      ConflictInside(x, y, path[0], path[1..]);
      ConflictFails(x.entries[path[0]], y.entries[path[0]], path[1..]);
    }
  }

  /** The path to a conflict in values that do not merge. */
  lemma {:induction false} FailureHasConflict(x: Value, y: Value) returns (path: Path)
    requires Join(x, y).None?
    ensures Conflict(x, y, path)
  {
    if x.Dict? && y.Dict? {
      var k :| k in x.entries && k in y.entries && Join(x.entries[k], y.entries[k]).None?;
      path := FailureHasConflict(x.entries[k], y.entries[k]);
      ConflictInside(x, y, k, path);
      path := [k] + path;
    } else {
      path := [];
    }
  }

  lemma JoinFailsAtConflicts(x: Value, y: Value)
    ensures Join(x, y).None? <==> exists path :: Conflict(x, y, path)
  {
    if Join(x, y).None? {
      var path := FailureHasConflict(x, y);
    }
    if path :| Conflict(x, y, path) {
      ConflictFails(x, y, path);
    }
  }

  lemma MergedIsJoin(existing: map<string, Value>, updates: map<string, Value>, merged: map<string, Value>)
    requires merged.Keys == existing.Keys + updates.Keys
    requires forall k :: k in existing && k !in updates ==> merged[k] == existing[k]
    requires forall k :: k in updates && k !in existing ==> merged[k] == updates[k]
    requires forall k :: k in existing && k in updates ==> Join(existing[k], updates[k]) == Some(merged[k])
    ensures Join(Dict(existing), Dict(updates)) == Some(Dict(merged))
  {
    assert merged == Join(Dict(existing), Dict(updates)).value.entries;
  }

  lemma JoinOfLeaf(x: Value, y: Value)
    requires !(x.Dict? && y.Dict?)
    ensures Join(x, y) == if x == y then Some(x) else None
    ensures x != y ==> Conflict(x, y, [])
  {
  }

  /** `_merge_wandb_config`: the merge, or the path of one conflict. */
  method MergeWandbConfig(existing: map<string, Value>, updates: map<string, Value>, path: Path)
    returns (r: Result<map<string, Value>, Path>)
    ensures r.Ok? ==> Join(Dict(existing), Dict(updates)) == Some(Dict(r.value))
    ensures r.Err? ==> path <= r.error && Conflict(Dict(existing), Dict(updates), r.error[|path|..])
    decreases Dict(updates)
  {
    hide Join, Conflict;
    var merged := existing;
    var todo := updates.Keys;
    while todo != {}
      invariant todo <= updates.Keys
      invariant merged.Keys == existing.Keys + (updates.Keys - todo)
      invariant forall k :: k in merged && (k in todo || k !in updates) ==> merged[k] == existing[k]
      invariant forall k :: k in merged && k !in todo && k in updates && k !in existing ==> merged[k] == updates[k]
      invariant forall k :: k in existing && k in updates && k !in todo ==>
        Join(existing[k], updates[k]) == Some(merged[k])
      decreases todo
    {
      var key :| key in todo;
      todo := todo - {key};
      var value := updates[key];
      if key in existing && !(existing[key].Dict? && value.Dict?) {
        JoinOfLeaf(existing[key], value);
      }
      if key !in merged {
        merged := merged[key := value];
      } else if merged[key].Dict? && value.Dict? {
        var inner := MergeWandbConfig(merged[key].entries, value.entries, path + [key]);
        if inner.Err? {
          ConflictInside(Dict(existing), Dict(updates), key, inner.error[|path| + 1..]);
          assert inner.error[|path|..] == [key] + inner.error[|path| + 1..];
          return inner;
        }
        merged := merged[key := Dict(inner.value)];
      } else if merged[key] != value {
        ConflictInside(Dict(existing), Dict(updates), key, []);
        assert (path + [key])[|path|..] == [key] + [];
        return Err(path + [key]);
      }
    }
    MergedIsJoin(existing, updates, merged);
    return Ok(merged);
  }

  // ---------- Whole histories of updates ----------

  /** What the updates merge to, one after the other, from no config. */
  ghost function JoinAll(updates: seq<Value>): Option<Value> {
    if updates == [] then Some(Dict(map[])) else Then(JoinAll(updates[..|updates| - 1]), updates[|updates| - 1])
  }

  lemma JoinAllAppend(updates: seq<Value>, last: Value)
    ensures JoinAll(updates + [last]) == Then(JoinAll(updates), last)
  {
    assert (updates + [last])[..|updates|] == updates;
  }

  ghost predicate Bounds(u: Value, updates: seq<Value>) {
    u.Dict? && forall c :: c in updates ==> Leq(c, u)
  }

  lemma {:induction false} JoinAllIsLeast(updates: seq<Value>, u: Value)
    requires forall c :: c in updates ==> c.Dict?
    requires JoinAll(updates).Some?
    ensures Bounds(JoinAll(updates).value, updates)
    ensures Bounds(u, updates) ==> Leq(JoinAll(updates).value, u)
  {
    hide Join;
    if updates == [] {
    } else {
      var init, last := updates[..|updates| - 1], updates[|updates| - 1];
      JoinAllIsLeast(init, u);
      var v := JoinAll(init).value;
      JoinIsLeast(v, last, u);
      forall c | c in updates
        ensures Leq(c, JoinAll(updates).value)
      {
        if c in init {
          LeqTransitive(c, v, JoinAll(updates).value);
        }
      }
    }
  }

  lemma {:induction false} BoundedJoinAll(updates: seq<Value>, u: Value)
    requires forall c :: c in updates ==> c.Dict?
    requires Bounds(u, updates)
    ensures JoinAll(updates).Some?
  {
    hide Join, Leq;
    if updates == [] {
    } else {
      var init, last := updates[..|updates| - 1], updates[|updates| - 1];
      BoundedJoinAll(init, u);
      JoinAllIsLeast(init, u);
      BoundedJoins(JoinAll(init).value, last, u);
    }
  }

  /** Which config a history of updates leads to, and whether one of them is refused, depends only on which
    * updates there are: not on their order, and not on how often each is made.
    */
  lemma HistoryOrderIsIrrelevant(a: seq<Value>, b: seq<Value>)
    requires forall c :: c in a <==> c in b
    requires forall c :: c in a ==> c.Dict?
    ensures JoinAll(a) == JoinAll(b)
  {
    hide JoinAll, Leq;
    if JoinAll(a).Some? {
      JoinAllIsLeast(a, JoinAll(a).value);
      BoundedJoinAll(b, JoinAll(a).value);
    }
    if JoinAll(b).Some? {
      JoinAllIsLeast(b, JoinAll(b).value);
      BoundedJoinAll(a, JoinAll(b).value);
      JoinAllIsLeast(a, JoinAll(b).value);
      JoinAllIsLeast(b, JoinAll(a).value);
      LeqAntisymmetric(JoinAll(a).value, JoinAll(b).value);
    }
  }

  datatype UpdateError = NotADict | ConflictAt(path: Path)

  /** The part of a model that holds its run config. */
  class WandbConfig {
    var config: map<string, Value>
    /** The updates that were not refused, in order. */
    ghost var accepted: seq<Value>

    ghost predicate Valid()
      reads this
    {
      (forall c :: c in accepted ==> c.Dict?) && JoinAll(accepted) == Some(Dict(config))
    }

    constructor ()
      ensures Valid() && config == map[] && accepted == []
    {
      config, accepted := map[], [];
    }

    /** `update_wandb_config`: the config only ever grows, to the least one that says everything accepted;
      * an update that contradicts it is refused whole, at a path where the two differ.
      */
    method Update(updates: Value) returns (r: Option<UpdateError>)
      requires Valid()
      modifies this
      ensures Valid()
      ensures accepted == if r.None? then old(accepted) + [updates] else old(accepted)
      ensures r.None? <==> updates.Dict? && Join(old(Dict(config)), updates).Some?
      ensures r.None? ==> Leq(old(Dict(config)), Dict(config)) && Leq(updates, Dict(config))
      ensures r.Some? ==> config == old(config)
      ensures r.Some? && updates.Dict? ==> r.value.ConflictAt? && Conflict(old(Dict(config)), updates, r.value.path)
    {
      hide Join, Leq, JoinAll, Conflict;
      if updates.Atom? {
        return Some(NotADict);
      }
      var merged := MergeWandbConfig(config, updates.entries, []);
      match merged
      case Ok(m) =>
        JoinIsLeast(Dict(config), updates, updates);
        JoinAllAppend(accepted, updates);
        config, accepted := m, accepted + [updates];
        return None;
      case Err(path) =>
        assert path[0..] == path;
        ConflictFails(Dict(config), updates, path);
        return Some(ConflictAt(path));
    }
  }

  // ---------- The merge where the newer value wins ----------

  function Overlay(x: Value, y: Value): Value {
    if x.Dict? && y.Dict? then
      Dict(map k | k in x.entries.Keys + y.entries.Keys ::
        if k !in y.entries then x.entries[k]
        else if k !in x.entries then y.entries[k]
        else Overlay(x.entries[k], y.entries[k]))
    else y
  }

  /** `_deep_merge_dicts` */
  method DeepMergeDicts(base: map<string, Value>, updates: map<string, Value>) returns (merged: map<string, Value>)
    ensures Dict(merged) == Overlay(Dict(base), Dict(updates))
    decreases Dict(updates)
  {
    merged := base;
    var todo := updates.Keys;
    while todo != {}
      invariant todo <= updates.Keys
      invariant merged.Keys == base.Keys + (updates.Keys - todo)
      invariant forall k :: k in merged && (k in todo || k !in updates) ==> merged[k] == base[k]
      invariant forall k :: k in merged && k !in todo && k in updates ==>
        merged[k] == if k in base then Overlay(base[k], updates[k]) else updates[k]
      decreases todo
    {
      var key :| key in todo;
      todo := todo - {key};
      if key in merged && merged[key].Dict? && updates[key].Dict? {
        var inner := DeepMergeDicts(merged[key].entries, updates[key].entries);
        merged := merged[key := Dict(inner)];
      } else {
        merged := merged[key := updates[key]];
      }
    }
    assert merged == Overlay(Dict(base), Dict(updates)).entries;
  }

  /** A proper prefix of the path is a leaf of `y`, which hides whatever the older value has below it. */
  predicate Hidden(y: Value, path: Path) {
    path != [] && (y.Atom? || (path[0] in y.entries && Hidden(y.entries[path[0]], path[1..])))
  }

  /** What the merge has at a path: the newer value where there is one, merged with the older one if both
    * are dictionaries; and the older value where the newer side says nothing on the way there.
    */
  lemma {:induction false} OverlayAt(x: Value, y: Value, path: Path)
    ensures Lookup(Overlay(x, y), path) ==
      match (Lookup(x, path), Lookup(y, path))
      case (_, Some(w)) => (match Lookup(x, path) case Some(v) => Some(Overlay(v, w)) case None => Some(w))
      case (v, None) => if Hidden(y, path) || !(x.Dict? && y.Dict?) then None else v
  {
    if path != [] && x.Dict? && y.Dict? && path[0] in x.entries && path[0] in y.entries {
      OverlayAt(x.entries[path[0]], y.entries[path[0]], path[1..]);
    }
  }

  /** Merging the same updates again changes nothing. */
  lemma {:induction false} OverlayAbsorbs(x: Value, y: Value)
    ensures Overlay(Overlay(x, y), y) == Overlay(x, y)
  {
    if x.Dict? && y.Dict? {
      var z := Overlay(x, y);
      forall k | k in z.entries && k in y.entries
        ensures Overlay(z.entries[k], y.entries[k]) == z.entries[k]
      {
        if k in x.entries {
          OverlayAbsorbs(x.entries[k], y.entries[k]);
        } else {
          OverlaySelf(y.entries[k]);
        }
      }
      assert Overlay(z, y).entries == z.entries;
    } else {
      OverlaySelf(y);
    }
  }

  lemma {:induction false} OverlaySelf(y: Value)
    ensures Overlay(y, y) == y
  {
    if y.Dict? {
      forall k | k in y.entries
        ensures Overlay(y.entries[k], y.entries[k]) == y.entries[k]
      {
        OverlaySelf(y.entries[k]);
      }
      assert Overlay(y, y).entries == y.entries;
    }
  }

  /** Where the strict merge succeeds, the two merges give the same. */
  lemma {:induction false} OverlayExtendsJoin(x: Value, y: Value)
    requires Join(x, y).Some?
    ensures Overlay(x, y) == Join(x, y).value
  {
    if x.Dict? && y.Dict? {
      forall k | k in x.entries && k in y.entries
        ensures Overlay(x.entries[k], y.entries[k]) == Join(x.entries[k], y.entries[k]).value
      {
        OverlayExtendsJoin(x.entries[k], y.entries[k]);
      }
      assert Overlay(x, y).entries == Join(x, y).value.entries;
    }
  }
}
