/**
 * The frontend lockfile check: every dependency and devDependency named in
 * package.json must appear in the root entry of package-lock.json, and the check
 * fails when one does not.
 */
module LockfileSync {
  import opened Wrappers
  import Seqs

  /** A parsed JSON object, as the list `Object.keys` returns (no key repeats). */
  datatype JsObject = JsObject(keys: seq<string>)

  /** The two dependency maps of package.json; `None` when the field is missing or falsy. */
  datatype PackageJson = PackageJson(dependencies: Option<JsObject>, devDependencies: Option<JsObject>)

  /** `lock.packages[""]`, the root entry, with its two dependency maps. */
  datatype LockRoot = LockRoot(dependencies: Option<JsObject>, devDependencies: Option<JsObject>)

  /** package-lock.json; `root` is `None` when `packages` or its `""` entry is missing. */
  datatype LockJson = LockJson(root: Option<LockRoot>)

  /** Why the check exits with status 1. */
  datatype SyncError =
    | Unreadable(file: string)
    | MissingRootEntry
    | OutOfSync(missingDeps: seq<string>, missingDevDeps: seq<string>)

  /**
   * The names every plain object inherits from `Object.prototype`, which the `in`
   * operator also sees.
   */
  const PrototypeNames: set<string> := {
    "constructor", "hasOwnProperty", "isPrototypeOf", "propertyIsEnumerable",
    "toLocaleString", "toString", "valueOf", "__proto__",
    "__defineGetter__", "__defineSetter__", "__lookupGetter__", "__lookupSetter__"
  }

  /** `Object.keys(depMap || {})`. */
  function KeysOf(depMap: Option<JsObject>): seq<string> {
    if depMap.Some? then depMap.value.keys else []
  }

  // ---- as written: `name in lockMap` ----

  /** `name in lockMap` as JavaScript evaluates it: own keys and inherited prototype names. */
  predicate InAsWritten(name: string, lockMap: JsObject) {
    name in lockMap.keys || name in PrototypeNames
  }

  /** `diffDeps` as written. */
  function MissingAsWritten(depMap: Option<JsObject>, lockMap: Option<JsObject>): seq<string> {
    Seqs.Filter(KeysOf(depMap), n => lockMap.None? || !InAsWritten(n, lockMap.value))
  }

  /**
   * A dependency called `constructor` that the lockfile lacks is not reported as
   * written, and the own-key check reports it.
   */
  lemma PrototypeNameMasked()
    ensures MissingAsWritten(Some(JsObject(["constructor"])), Some(JsObject([]))) == []
    ensures Missing(Some(JsObject(["constructor"])), Some(JsObject([]))) == ["constructor"]
  {
    assert "constructor" in PrototypeNames;
    var keys := ["constructor"];
    assert keys[..0] == [];
  }

  // ---- corrected: an own-key test ----

  /** The lockfile lists `name` among its own keys. */
  predicate Lists(lockMap: Option<JsObject>, name: string) {
    lockMap.Some? && name in lockMap.value.keys
  }

  /** The names of `depMap` the lock map does not list, in `depMap`'s key order. */
  function Missing(depMap: Option<JsObject>, lockMap: Option<JsObject>): seq<string> {
    Seqs.Filter(KeysOf(depMap), n => !Lists(lockMap, n))
  }

  /** `diffDeps(depMap, lockMap)`: the `forEach` loop pushing every unlisted name. */
  method DiffDeps(depMap: Option<JsObject>, lockMap: Option<JsObject>) returns (missing: seq<string>)
    ensures missing == Missing(depMap, lockMap)
  {
    var keys := KeysOf(depMap);
    missing := [];
    var i := 0;
    while i < |keys|
      invariant 0 <= i <= |keys|
      invariant missing == Seqs.Filter(keys[..i], n => !Lists(lockMap, n))
    {
      assert keys[..i + 1][..i] == keys[..i];
      var name := keys[i];
      if lockMap.None? || name !in lockMap.value.keys {
        missing := missing + [name];
      }
      i := i + 1;
    }
    assert keys[..i] == keys;
  }

  /** A name is reported exactly when it is a key of `depMap` and the lock map does not list it. */
  lemma MissingMembers(depMap: Option<JsObject>, lockMap: Option<JsObject>, name: string)
    ensures name in Missing(depMap, lockMap) <==>
      depMap.Some? && name in depMap.value.keys && (lockMap.None? || name !in lockMap.value.keys)
  {
    Seqs.FilterMember(KeysOf(depMap), n => !Lists(lockMap, n), name);
  }

  /** An absent `depMap` reports nothing; an absent lock map reports every key. */
  lemma MissingExtremes(depMap: Option<JsObject>)
    ensures Missing(None, depMap) == []
    ensures Missing(depMap, None) == KeysOf(depMap)
  {
    FilterAll(KeysOf(depMap), n => !Lists(None, n));
  }

  lemma {:induction false} FilterAll<T>(s: seq<T>, p: T -> bool)
    requires forall x :: p(x)
    ensures Seqs.Filter(s, p) == s
  {
    if s != [] {
      FilterAll(s[..|s| - 1], p);
      assert s == s[..|s| - 1] + [s[|s| - 1]];
    }
  }

  /** The first position of `name` among `keys`. */
  function Position(keys: seq<string>, name: string): (i: nat)
    requires name in keys
    ensures i < |keys| && keys[i] == name
  {
    var init := keys[..|keys| - 1];
    if name in init then Position(init, name) else |keys| - 1
  }

  predicate Distinct(keys: seq<string>) {
    forall i, j :: 0 <= i < j < |keys| ==> keys[i] != keys[j]
  }

  /** The report keeps `depMap`'s key order: earlier names come from earlier keys. */
  lemma {:induction false} MissingInKeyOrder(keys: seq<string>, lockMap: Option<JsObject>)
    requires Distinct(keys)
    ensures var m := Missing(Some(JsObject(keys)), lockMap);
      forall i, j :: 0 <= i < j < |m| ==>
        m[i] in keys && m[j] in keys && Position(keys, m[i]) < Position(keys, m[j])
  {
    if keys != [] {
      var init := keys[..|keys| - 1];
      var last := keys[|keys| - 1];
      assert Distinct(init);
      MissingInKeyOrder(init, lockMap);
      var before := Missing(Some(JsObject(init)), lockMap);
      var m := Missing(Some(JsObject(keys)), lockMap);
      assert m == before + (if Lists(lockMap, last) then [] else [last]);
      assert last !in init;
      forall k | 0 <= k < |before|
        ensures before[k] in init && Position(keys, before[k]) == Position(init, before[k])
      {
        MissingMembers(Some(JsObject(init)), lockMap, before[k]);
      }
      forall i, j | 0 <= i < j < |m|
        ensures m[i] in keys && m[j] in keys && Position(keys, m[i]) < Position(keys, m[j])
      {
        if j < |before| {
          assert m[i] == before[i] && m[j] == before[j];
        } else {
          assert m[i] == before[i] && m[j] == last;
          assert Position(keys, last) == |keys| - 1;
        }
      }
    }
  }

  /** The whole script: exit status 0 exactly when both files load, the root entry exists and nothing is missing. */
  method CheckLockfileSync(pkg: Result<PackageJson, string>, lock: Result<LockJson, string>)
    returns (r: Outcome<SyncError>)
    ensures r.Pass? <==>
      && pkg.Success? && lock.Success? && lock.value.root.Some?
      && Missing(pkg.value.dependencies, lock.value.root.value.dependencies) == []
      && Missing(pkg.value.devDependencies, lock.value.root.value.devDependencies) == []
    ensures pkg.Failure? ==> r == Fail(Unreadable(pkg.error))
    ensures pkg.Success? && lock.Failure? ==> r == Fail(Unreadable(lock.error))
    ensures pkg.Success? && lock.Success? && lock.value.root.None? ==> r == Fail(MissingRootEntry)
    ensures pkg.Success? && lock.Success? && lock.value.root.Some? && !r.Pass? ==>
      r == Fail(OutOfSync(Missing(pkg.value.dependencies, lock.value.root.value.dependencies),
                          Missing(pkg.value.devDependencies, lock.value.root.value.devDependencies)))
  {
    if pkg.Failure? {
      return Fail(Unreadable(pkg.error));
    }
    if lock.Failure? {
      return Fail(Unreadable(lock.error));
    }
    var root := lock.value.root;
    if root.None? {
      return Fail(MissingRootEntry);
    }
    var missingDeps := DiffDeps(pkg.value.dependencies, root.value.dependencies);
    var missingDevDeps := DiffDeps(pkg.value.devDependencies, root.value.devDependencies);
    if |missingDeps| > 0 || |missingDevDeps| > 0 {
      return Fail(OutOfSync(missingDeps, missingDevDeps));
    }
    return Pass;
  }
}
