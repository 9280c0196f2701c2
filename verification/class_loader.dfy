/**
  ParallelRunnerClassLoader: one loader per lane. Names under a configured prefix are isolated:
  the lane loader defines them itself, so every lane gets its own copy of the class and of its
  static state. Every other name is delegated to the shared parent loader.

  A JVM class is identified by its defining loader and its name; `ClassRef` is that pair.
*/
module ClassLoading {
  import opened Common

  /** Who defined a class: the loader of one lane, or the shared parent. */
  datatype Definer = Lane(lane: nat) | Shared

  datatype ClassRef = ClassRef(definer: Definer, name: string)

  /** isIsolated's meaning: a prefix list is configured and one of its entries starts the name
      (`String.startsWith`; `<=` on sequences is the prefix order). */
  predicate Isolated(isolate: Option<seq<string>>, name: string) {
    isolate.Some? && exists p :: p in isolate.value && p <= name
  }

  /** A loaded-class table in which every class was defined by `definer` under its own name. */
  ghost predicate DefinedBy(table: map<string, ClassRef>, definer: Definer) {
    forall n :: n in table ==> table[n] == ClassRef(definer, n)
  }

  /** A load's result and the loader's table afterwards. */
  datatype Loaded = Loaded(result: Result<ClassRef>, table: map<string, ClassRef>)

  /** `findLoadedClass`, then `findClass`: the class this loader already defined under `name`, or
      a class it defines now from its class path, or ClassNotFoundException. */
  function FindOrDefine(table: map<string, ClassRef>, classpath: set<string>, definer: Definer, name: string): (l: Loaded)
    ensures l.result.Success? <==> name in table || name in classpath
    ensures l.result.Failure? ==> l.result.error == ClassNotFound(name) && l.table == table
    ensures DefinedBy(table, definer) && l.result.Success? ==> l.result.value == ClassRef(definer, name)
    ensures DefinedBy(table, definer) ==> DefinedBy(l.table, definer)
    ensures forall n :: n in table ==> n in l.table && l.table[n] == table[n]
    ensures l.table.Keys <= table.Keys + {name}
  {
    if name in table then Loaded(Success(table[name]), table)
    else if name in classpath then Loaded(Success(ClassRef(definer, name)), table[name := ClassRef(definer, name)])
    else Loaded(Failure(ClassNotFound(name)), table)
  }

  /** Loading the same name again from the same loader returns the same class and defines
      nothing new: within one lane an isolated class, and so its static state, is shared. */
  lemma LoadIsStable(table: map<string, ClassRef>, classpath: set<string>, definer: Definer, name: string)
    requires FindOrDefine(table, classpath, definer, name).result.Success?
    ensures var first := FindOrDefine(table, classpath, definer, name);
            FindOrDefine(first.table, classpath, definer, name) == Loaded(first.result, first.table)
  {
  }

  /** Two lanes never obtain the same isolated class, whatever their tables and class paths. */
  lemma LanesNeverShareIsolatedClasses(
    table1: map<string, ClassRef>, classpath1: set<string>, lane1: nat,
    table2: map<string, ClassRef>, classpath2: set<string>, lane2: nat, name: string)
    requires lane1 != lane2
    requires DefinedBy(table1, Lane(lane1)) && DefinedBy(table2, Lane(lane2))
    requires FindOrDefine(table1, classpath1, Lane(lane1), name).result.Success?
    requires FindOrDefine(table2, classpath2, Lane(lane2), name).result.Success?
    ensures FindOrDefine(table1, classpath1, Lane(lane1), name).result
         != FindOrDefine(table2, classpath2, Lane(lane2), name).result
  {
  }

  /** The shared parent (the thread's context class loader) that every lane delegates to. */
  class SharedLoader {
    const classpath: set<string>
    var loaded: map<string, ClassRef>

    ghost predicate Valid()
      reads this
    {
      DefinedBy(loaded, Shared)
    }

    constructor (classpath: set<string>)
      ensures Valid() && this.classpath == classpath && loaded == map[]
    {
      this.classpath := classpath;
      loaded := map[];
    }

    /** parent.loadClass(name) */
    method LoadClass(name: string) returns (r: Result<ClassRef>)
      requires Valid()
      modifies this
      ensures Valid()
      ensures Loaded(r, loaded) == FindOrDefine(old(loaded), classpath, Shared, name)
    {
      var l := FindOrDefine(loaded, classpath, Shared, name);
      r, loaded := l.result, l.table;
    }
  }

  class ParallelRunnerClassLoader {
    const lane: nat
    const parent: SharedLoader
    const isolate: Option<seq<string>>
    /** The URLs taken from the parent at construction, from which isolated classes are defined. */
    const classpath: set<string>
    /** What `findLoadedClass` sees: the classes this loader has defined. */
    var loaded: map<string, ClassRef>

    ghost predicate Valid()
      reads this, parent
    {
      && parent.Valid()
      && DefinedBy(loaded, Lane(lane))
      && forall n :: n in loaded ==> Isolated(isolate, n)
    }

    constructor (lane: nat, parent: SharedLoader, isolate: Option<seq<string>>)
      requires parent.Valid()
      ensures Valid()
      ensures this.lane == lane && this.parent == parent && this.isolate == isolate
      ensures classpath == parent.classpath && loaded == map[]
    {
      this.lane := lane;
      this.parent := parent;
      this.isolate := isolate;
      classpath := parent.classpath;
      loaded := map[];
    }

    /** isIsolated: false when no prefixes are configured; otherwise true at the first prefix
        that starts the name. */
    method IsIsolated(name: string) returns (r: bool)
      ensures r == Isolated(isolate, name)
    {
      if isolate.Some? && |isolate.value| > 0 {
        var prefixes := isolate.value;
        for i := 0 to |prefixes|
          invariant forall j :: 0 <= j < i ==> !(prefixes[j] <= name)
        {
          if prefixes[i] <= name {
            assert prefixes[i] in isolate.value;
            return true;
          }
        }
      }
      return false;
    }

    /** loadClass: an isolated name from this loader's own table or class path; any other name
        from the shared parent, leaving this loader's table alone. */
    method LoadClass(name: string) returns (r: Result<ClassRef>)
      requires Valid()
      modifies this, parent
      ensures Valid()
      ensures Isolated(isolate, name) ==>
                && Loaded(r, loaded) == FindOrDefine(old(loaded), classpath, Lane(lane), name)
                && parent.loaded == old(parent.loaded)
      ensures !Isolated(isolate, name) ==>
                && loaded == old(loaded)
                && Loaded(r, parent.loaded) == FindOrDefine(old(parent.loaded), parent.classpath, Shared, name)
    {
      var isolated := IsIsolated(name);
      if isolated {
        var l := FindOrDefine(loaded, classpath, Lane(lane), name);
        r, loaded := l.result, l.table;
      } else {
        r := parent.LoadClass(name);
      }
    }
  }
}
