/**
 The guard of the client's build: which modules of a workspace the chunks preloaded by the entry
 bring along. The worklist visits every chunk reachable by static imports exactly once, cycles or not.
 */
module StartChunk {

  datatype Module = Module(id: string, renderedLength: nat)

  datatype File = Chunk(isEntry: bool, imports: seq<string>, modules: seq<Module>) | Asset

  type Bundle = map<string, File>

  predicate IsChunk(bundle: Bundle, name: string) {
    name in bundle && bundle[name].Chunk?
  }

  predicate IsEntry(bundle: Bundle, name: string) {
    IsChunk(bundle, name) && bundle[name].isEntry
  }

  // ---------------------------------------------------------------------------------------------
  // What is preloaded

  /** From an entry, each chunk importing the next one statically. */
  ghost predicate IsPath(bundle: Bundle, path: seq<string>) {
    && path != [] && IsEntry(bundle, path[0])
    && (forall i :: 0 <= i < |path| ==> IsChunk(bundle, path[i]))
    && forall i :: 0 < i < |path| ==> path[i] in bundle[path[i - 1]].imports
  }

  ghost predicate Preloaded(bundle: Bundle, name: string) {
    exists path :: IsPath(bundle, path) && path[|path| - 1] == name
  }

  lemma ImportedIsPreloaded(bundle: Bundle, name: string, imported: string)
    requires Preloaded(bundle, name) && IsChunk(bundle, name) && imported in bundle[name].imports
               && IsChunk(bundle, imported)
    ensures Preloaded(bundle, imported)
  {
    var path :| IsPath(bundle, path) && path[|path| - 1] == name;
    assert IsPath(bundle, path + [imported]);
  }

  lemma EntryIsPreloaded(bundle: Bundle, name: string)
    requires IsEntry(bundle, name)
    ensures Preloaded(bundle, name)
  {
    assert IsPath(bundle, [name]);
  }

  /** A set of chunks with all entries and everything they import has all that is preloaded. */
  lemma {:induction false} ClosedHasPaths(bundle: Bundle, seen: set<string>, path: seq<string>)
    requires IsPath(bundle, path)
    requires forall name :: IsEntry(bundle, name) ==> name in seen
    requires forall name, imported :: name in seen && IsChunk(bundle, name) && imported in bundle[name].imports
               && IsChunk(bundle, imported)
               ==> imported in seen
    ensures path[|path| - 1] in seen
  {
    var n := |path| - 1;
    if n > 0 {
      assert IsPath(bundle, path[..n]);
      ClosedHasPaths(bundle, seen, path[..n]);
    }
  }

  // ---------------------------------------------------------------------------------------------
  // What is found

  function Report(name: string, id: string): string {
    name + ": " + id
  }

  function FoundImports(pattern: string -> bool, name: string, imports: seq<string>): seq<string> {
    if imports == [] then []
    else
      var last := imports[|imports| - 1];
      var before := FoundImports(pattern, name, imports[..|imports| - 1]);
      if pattern(last) then before + [Report(name, last)] else before
  }

  function FoundModules(pattern: string -> bool, name: string, modules: seq<Module>): seq<string> {
    if modules == [] then []
    else
      var last := modules[|modules| - 1];
      var before := FoundModules(pattern, name, modules[..|modules| - 1]);
      if last.renderedLength > 0 && pattern(last.id) then before + [Report(name, last.id)] else before
  }

  function FoundIn(pattern: string -> bool, bundle: Bundle, visited: seq<string>): seq<string>
    requires forall i :: 0 <= i < |visited| ==> IsChunk(bundle, visited[i])
  {
    if visited == [] then []
    else
      var last := visited[|visited| - 1];
      assert IsChunk(bundle, last);
      FoundIn(pattern, bundle, visited[..|visited| - 1]) + FoundInChunk(pattern, last, bundle[last])
  }

  function FoundInChunk(pattern: string -> bool, name: string, file: File): seq<string>
    requires file.Chunk?
  {
    FoundImports(pattern, name, file.imports) + FoundModules(pattern, name, file.modules)
  }

  /** A module with this id is drawn with. */
  ghost predicate Drawn(modules: seq<Module>, id: string) {
    exists i :: 0 <= i < |modules| && modules[i].renderedLength > 0 && modules[i].id == id
  }

  /** A chunk brings a workspace module: it imports one, or holds one that is drawn with. */
  ghost predicate BringsModule(pattern: string -> bool, file: File, id: string)
    requires file.Chunk?
  {
    pattern(id) && (id in file.imports || Drawn(file.modules, id))
  }

  ghost predicate Brings(pattern: string -> bool, file: File)
    requires file.Chunk?
  {
    exists id :: BringsModule(pattern, file, id)
  }

  lemma {:induction false} ImportsFound(pattern: string -> bool, name: string, imports: seq<string>)
    ensures forall text :: text in FoundImports(pattern, name, imports) <==>
              exists id :: id in imports && pattern(id) && text == Report(name, id)
  {
    hide Report;
    if imports != [] {
      ImportsFound(pattern, name, imports[..|imports| - 1]);
      assert imports == imports[..|imports| - 1] + [imports[|imports| - 1]];
    }
  }

  lemma DrawnMore(modules: seq<Module>, id: string)
    requires modules != []
    ensures var n := |modules| - 1;
            Drawn(modules, id) <==> Drawn(modules[..n], id) || (modules[n].renderedLength > 0 && modules[n].id == id)
  {
    var n := |modules| - 1;
    if Drawn(modules[..n], id) {
      var i :| 0 <= i < n && modules[..n][i].renderedLength > 0 && modules[..n][i].id == id;
      assert modules[i].id == id;
    }
  }

  lemma {:induction false} ModulesFound(pattern: string -> bool, name: string, modules: seq<Module>)
    ensures forall text :: text in FoundModules(pattern, name, modules) <==>
              exists id :: Drawn(modules, id) && pattern(id) && text == Report(name, id)
  {
    hide Report, Drawn;
    if modules != [] {
      ModulesFound(pattern, name, modules[..|modules| - 1]);
      forall id
        ensures Drawn(modules, id) <==>
                  Drawn(modules[..|modules| - 1], id)
                  || (modules[|modules| - 1].renderedLength > 0 && modules[|modules| - 1].id == id)
      {
        DrawnMore(modules, id);
      }
    } else {
      forall id ensures !Drawn(modules, id) {
        NoneDrawn(modules, id);
      }
    }
  }

  lemma NoneDrawn(modules: seq<Module>, id: string)
    requires modules == []
    ensures !Drawn(modules, id)
  {
  }

  lemma ChunkFound(pattern: string -> bool, name: string, file: File)
    requires file.Chunk?
    ensures forall text :: text in FoundInChunk(pattern, name, file) <==>
              exists id :: BringsModule(pattern, file, id) && text == Report(name, id)
  {
    hide Report, Drawn;
    ImportsFound(pattern, name, file.imports);
    ModulesFound(pattern, name, file.modules);
  }

  /** One of these chunks brings what the text reports. */
  ghost predicate Reports(pattern: string -> bool, bundle: Bundle, visited: seq<string>, text: string) {
    exists name, id ::
      name in visited && IsChunk(bundle, name) && BringsModule(pattern, bundle[name], id) && text == Report(name, id)
  }

  /** What is found is exactly what the visited chunks bring, each with the chunk that brings it. */
  lemma {:induction false} FoundIsBrought(pattern: string -> bool, bundle: Bundle, visited: seq<string>)
    requires forall i :: 0 <= i < |visited| ==> IsChunk(bundle, visited[i])
    ensures forall text :: text in FoundIn(pattern, bundle, visited) <==> Reports(pattern, bundle, visited, text)
  {
    hide Report, BringsModule;
    if visited != [] {
      var before, name := visited[..|visited| - 1], visited[|visited| - 1];
      FoundIsBrought(pattern, bundle, before);
      ChunkFound(pattern, name, bundle[name]);
      assert visited == before + [name];
      forall text
        ensures Reports(pattern, bundle, visited, text) <==>
                  Reports(pattern, bundle, before, text)
                  || exists id :: BringsModule(pattern, bundle[name], id) && text == Report(name, id)
      {
        ReportsMore(pattern, bundle, before, name, text);
      }
    }
  }

  lemma ReportsMore(pattern: string -> bool, bundle: Bundle, visited: seq<string>, name: string, text: string)
    requires IsChunk(bundle, name)
    ensures Reports(pattern, bundle, visited + [name], text) <==>
              Reports(pattern, bundle, visited, text)
              || exists id :: BringsModule(pattern, bundle[name], id) && text == Report(name, id)
  {
    hide Report, BringsModule;
  }

  /** Something is found exactly when one of the visited chunks brings something. */
  lemma FoundIffBrought(pattern: string -> bool, bundle: Bundle, visited: seq<string>)
    requires forall i :: 0 <= i < |visited| ==> IsChunk(bundle, visited[i])
    ensures FoundIn(pattern, bundle, visited) != []
       <==> exists i :: 0 <= i < |visited| && Brings(pattern, bundle[visited[i]])
  {
    hide FoundIn, Report, BringsModule;
    FoundIsBrought(pattern, bundle, visited);
    var found := FoundIn(pattern, bundle, visited);
    if found != [] {
      assert found[0] in found && Reports(pattern, bundle, visited, found[0]);
    }
    if i :| 0 <= i < |visited| && Brings(pattern, bundle[visited[i]]) {
      var id :| BringsModule(pattern, bundle[visited[i]], id);
      assert Reports(pattern, bundle, visited, Report(visited[i], id));
    }
  }

  lemma FoundMore(pattern: string -> bool, bundle: Bundle, visited: seq<string>, name: string)
    requires IsChunk(bundle, name) && forall i :: 0 <= i < |visited| ==> IsChunk(bundle, visited[i])
    ensures FoundIn(pattern, bundle, visited + [name])
              == FoundIn(pattern, bundle, visited) + FoundInChunk(pattern, name, bundle[name])
  {
    assert (visited + [name])[..|visited|] == visited;
  }

  // ---------------------------------------------------------------------------------------------
  // The worklist

  method SearchChunk(pattern: string -> bool, name: string, file: File) returns (found: seq<string>)
    requires file.Chunk?
    ensures found == FoundInChunk(pattern, name, file)
  {
    found := [];
    for i := 0 to |file.imports|
      invariant found == FoundImports(pattern, name, file.imports[..i])
    {
      assert file.imports[..i + 1][..i] == file.imports[..i];
      if pattern(file.imports[i]) {
        found := found + [Report(name, file.imports[i])];
      }
    }
    assert file.imports[..|file.imports|] == file.imports;
    ghost var before := found;
    for i := 0 to |file.modules|
      invariant found == before + FoundModules(pattern, name, file.modules[..i])
    {
      assert file.modules[..i + 1][..i] == file.modules[..i];
      var one := file.modules[i];
      if one.renderedLength > 0 && pattern(one.id) {
        found := found + [Report(name, one.id)];
      }
    }
    assert file.modules[..|file.modules|] == file.modules;
  }

  /** `names` are the names of the bundle in its own order. */
  method EntriesOf(bundle: Bundle, names: seq<string>) returns (queue: seq<string>)
    requires forall name :: name in bundle <==> name in names
    ensures forall name :: name in queue <==> IsEntry(bundle, name)
  {
    queue := [];
    for i := 0 to |names|
      invariant forall name :: name in queue <==> name in names[..i] && IsEntry(bundle, name)
    {
      assert names[..i + 1] == names[..i] + [names[i]];
      if IsEntry(bundle, names[i]) {
        queue := queue + [names[i]];
      }
    }
    assert names[..|names|] == names;
  }

  /** Every preloaded chunk is visited once, and something is found exactly when one of them brings it. */
  method PreloadedWorkspaceModules(bundle: Bundle, names: seq<string>, pattern: string -> bool)
    returns (found: seq<string>, ghost visited: seq<string>)
    requires forall name :: name in bundle <==> name in names
    ensures forall i, j :: 0 <= i < j < |visited| ==> visited[i] != visited[j]
    ensures forall name :: name in visited <==> Preloaded(bundle, name)
    ensures forall i :: 0 <= i < |visited| ==> IsChunk(bundle, visited[i])
    ensures found == FoundIn(pattern, bundle, visited)
    ensures forall text :: text in found <==>
              exists name, id :: Preloaded(bundle, name) && IsChunk(bundle, name)
                                 && BringsModule(pattern, bundle[name], id) && text == name + ": " + id
    ensures found != []
       <==> exists name :: Preloaded(bundle, name) && IsChunk(bundle, name) && Brings(pattern, bundle[name])
  {
    hide Preloaded, Brings, BringsModule, FoundInChunk, FoundIn;
    var seen: set<string> := {};
    var queue := EntriesOf(bundle, names);
    found, visited := [], [];
    FoundIffBrought(pattern, bundle, visited);
    forall name | name in queue ensures Preloaded(bundle, name) {
      EntryIsPreloaded(bundle, name);
    }
    while |queue| > 0
      invariant seen <= bundle.Keys && forall name :: name in seen <==> name in visited
      invariant forall i, j :: 0 <= i < j < |visited| ==> visited[i] != visited[j]
      invariant forall i :: 0 <= i < |visited| ==> IsChunk(bundle, visited[i]) && Preloaded(bundle, visited[i])
      invariant forall name :: name in queue && IsChunk(bundle, name) ==> Preloaded(bundle, name)
      invariant forall name :: IsEntry(bundle, name) ==> name in seen || name in queue
      invariant forall name, imported :: name in seen && imported in bundle[name].imports && IsChunk(bundle, imported)
                  ==> imported in seen || imported in queue
      invariant found == FoundIn(pattern, bundle, visited)
      decreases bundle.Keys - seen, |queue|
    {
      var name := queue[0];
      queue := queue[1..];
      if name in seen || !IsChunk(bundle, name) {
        continue;
      }
      seen := seen + {name};
      var file := bundle[name];
      forall imported | imported in file.imports && IsChunk(bundle, imported) ensures Preloaded(bundle, imported) {
        ImportedIsPreloaded(bundle, name, imported);
      }
      queue := queue + file.imports;
      var more := SearchChunk(pattern, name, file);
      found := found + more;
      FoundMore(pattern, bundle, visited, name);
      visited := visited + [name];
    }
    AllPreloadedSeen(bundle, seen);
    FoundIffBrought(pattern, bundle, visited);
    FoundIsBrought(pattern, bundle, visited);
  }

  lemma AllPreloadedSeen(bundle: Bundle, seen: set<string>)
    requires forall name :: IsEntry(bundle, name) ==> name in seen
    requires forall name, imported :: name in seen && IsChunk(bundle, name) && imported in bundle[name].imports
               && IsChunk(bundle, imported)
               ==> imported in seen
    ensures forall name :: Preloaded(bundle, name) ==> name in seen
  {
    forall name | Preloaded(bundle, name) ensures name in seen {
      var path :| IsPath(bundle, path) && path[|path| - 1] == name;
      ClosedHasPaths(bundle, seen, path);
    }
  }
}
