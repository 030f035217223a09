/** The flatten-column registry (src/body.py:222-320): stable, collision-free column names for JSON paths, carried from
  run to run, and the split of a row between its columns and the unmapped cell. */
module Registry {
  import opened Ranges
  import opened Broker
  import opened Naming

  /** One stored entry: the hash of a path and its column (src/state.py:114-120). */
  datatype Entry = Entry(hash: string, column: string)

  datatype Field = Field(path: Path, cell: string)

  datatype Split = Split(values: map<string, string>, unmapped: map<string, string>)
                 | NeverRegistered(path: Path) | TooLarge

  /** The fields of a registry: recorded names with the order of their recording, provisional names, and all names that
    are taken. */
  datatype Table = Table(byHash: map<string, string>, recorded: seq<string>, newHashes: seq<string>,
                         provisional: map<string, string>, taken: set<string>, overflowed: bool)
  {
    /** Every name given in this run, recorded or provisional. */
    function Names(): map<string, string> {
      byHash + provisional
    }
  }

  const MAX_FLATTEN_COLUMNS := 1000

  const UNMAPPED := "body_unmapped"

  ghost predicate HashInjective(hash: Path -> string) {
    forall p, q :: hash(p) == hash(q) ==> p == q
  }

  // ---------------------------------------------------------------- stored states

  /** The column a state holds for a hash: a later entry replaces an earlier one. */
  function Saved(state: seq<Entry>, hash: string): Option<string> {
    if state == [] then None
    else if Last(state).hash == hash then Some(Last(state).column)
    else Saved(Front(state), hash)
  }

  ghost function Known(state: seq<Entry>): set<string> {
    set e | e in state :: e.hash
  }

  ghost function Columns(state: seq<Entry>): set<string> {
    set e | e in state :: e.column
  }

  function Hashes(state: seq<Entry>): seq<string> {
    seq(|state|, i requires 0 <= i < |state| => state[i].hash)
  }

  /** The hashes of a state in the order in which they come first. */
  ghost function Firsts(state: seq<Entry>): seq<string> {
    if state == [] then []
    else if Last(state).hash in Known(Front(state)) then Firsts(Front(state))
    else Firsts(Front(state)) + [Last(state).hash]
  }

  ghost predicate DistinctHashes(state: seq<Entry>) {
    forall i, j :: 0 <= i < j < |state| ==> state[i].hash != state[j].hash
  }

  /** Distinct hashes, distinct columns, none of them blocked. */
  ghost predicate WellFormed(state: seq<Entry>, blocked: set<string>) {
    && DistinctHashes(state) && Columns(state) !! blocked
    && forall i, j :: 0 <= i < j < |state| ==> state[i].column != state[j].column
  }

  /** `names` is what the state says. */
  ghost predicate Agrees(names: map<string, string>, state: seq<Entry>) {
    forall h :: Saved(state, h) == if h in names then Some(names[h]) else None
  }

  lemma {:induction false} SavedIsKnown(state: seq<Entry>, h: string)
    ensures Saved(state, h).Some? <==> h in Known(state)
    ensures Saved(state, h).Some? ==> Saved(state, h).value in Columns(state)
  {
    if state != [] {
      SavedIsKnown(Front(state), h);
      assert state == Front(state) + [Last(state)];
    }
  }

  lemma {:induction false} SavedAt(state: seq<Entry>, i: nat)
    requires DistinctHashes(state) && i < |state|
    ensures Saved(state, state[i].hash) == Some(state[i].column)
  {
    if i < |state| - 1 {
      SavedAt(Front(state), i);
    }
  }

  lemma KnownNext(state: seq<Entry>, e: Entry)
    ensures Known(state + [e]) == Known(state) + {e.hash} && Columns(state + [e]) == Columns(state) + {e.column}
    ensures Hashes(state + [e]) == Hashes(state) + [e.hash]
  {
  }

  lemma {:induction false} FirstsFacts(state: seq<Entry>)
    ensures Distinct(Firsts(state)) && Elements(Firsts(state)) == Known(state) == Elements(Hashes(state))
    ensures DistinctHashes(state) ==> Firsts(state) == Hashes(state)
  {
    if state != [] {
      FirstsFacts(Front(state));
      assert state == Front(state) + [Last(state)];
      KnownNext(Front(state), Last(state));
      if Last(state).hash !in Known(Front(state)) {
        OrderGrows(Firsts(Front(state)), Last(state).hash);
      }
      ElementsConcat(Hashes(Front(state)), [Last(state).hash]);
    }
  }

  /** `byHash` read off in the order of `hashes`. */
  function Listed(byHash: map<string, string>, hashes: seq<string>): seq<Entry>
    requires forall i :: 0 <= i < |hashes| ==> hashes[i] in byHash
  {
    seq(|hashes|, i requires 0 <= i < |hashes| => Entry(hashes[i], byHash[hashes[i]]))
  }

  lemma ListedHash(byHash: map<string, string>, order: seq<string>, h: string)
    requires Distinct(order) && Elements(order) == byHash.Keys
    ensures Saved(Listed(byHash, order), h) == if h in byHash then Some(byHash[h]) else None
  {
    var state := Listed(byHash, order);
    if h in Elements(order) {
      var i :| 0 <= i < |order| && order[i] == h;
      assert state[i] == Entry(h, byHash[h]);
      SavedAt(state, i);
    } else {
      SavedIsKnown(state, h);
    }
  }

  lemma ListedAgrees(byHash: map<string, string>, order: seq<string>)
    requires Distinct(order) && Elements(order) == byHash.Keys
    ensures DistinctHashes(Listed(byHash, order)) && Agrees(byHash, Listed(byHash, order))
    ensures |Listed(byHash, order)| == |byHash.Keys|
  {
    DistinctSize(order);
    forall h ensures Saved(Listed(byHash, order), h) == if h in byHash then Some(byHash[h]) else None {
      ListedHash(byHash, order, h);
    }
  }

  // ---------------------------------------------------------------- the registry as a value

  /** Names are shared by stored hashes at most. */
  ghost predicate OwnNames(known: set<string>, names: map<string, string>) {
    forall g, h :: g in names && h in names && names[g] == names[h] ==> g == h || (g in known && h in known)
  }

  /** All names are taken, and what was not stored before has a name that neither a stored nor a blocked column has. */
  ghost predicate NewNames(known: set<string>, base: set<string>, names: map<string, string>, taken: set<string>) {
    base <= taken && forall h :: h in names ==> names[h] in taken && (h in known || names[h] !in base)
  }

  /** What loading the stored state leaves untouched. */
  ghost predicate KeepsInput(input: seq<Entry>, t: Table) {
    && t.recorded == Firsts(input) + t.newHashes
    && forall h :: Saved(input, h).Some? ==> h in t.byHash && t.byHash[h] == Saved(input, h).value
  }

  /** Provisional names exist only once the recorded ones have reached the cap. */
  ghost predicate Capped(t: Table) {
    (t.overflowed <==> t.provisional != map[]) && (t.overflowed ==> |t.byHash.Keys| >= MAX_FLATTEN_COLUMNS)
  }

  /** What every operation on the registry keeps. */
  ghost predicate Consistent(blocked: set<string>, input: seq<Entry>, t: Table) {
    && Distinct(t.recorded) && Elements(t.recorded) == t.byHash.Keys && t.provisional.Keys !! t.byHash.Keys
    && OwnNames(Known(input), t.Names()) && NewNames(Known(input), blocked + Columns(input), t.Names(), t.taken)
    && KeepsInput(input, t) && Capped(t)
  }

  lemma OrderGrows(order: seq<string>, h: string)
    requires Distinct(order) && h !in Elements(order)
    ensures Distinct(order + [h]) && Elements(order + [h]) == Elements(order) + {h}
  {
  }

  lemma KeysGrow(cells: map<string, string>, key: string, cell: string)
    requires key !in cells
    ensures cells[key := cell].Keys == cells.Keys + {key} && |cells[key := cell].Keys| == |cells.Keys| + 1
  {
  }

  /** A name that was free is nobody else's. */
  lemma NameIsNew(known: set<string>, base: set<string>, names: map<string, string>, taken: set<string>, h: string,
                  name: string)
    requires OwnNames(known, names) && NewNames(known, base, names, taken) && h !in names && name !in taken
    ensures OwnNames(known, names[h := name]) && NewNames(known, base, names[h := name], taken + {name})
  {
  }

  function Recording(t: Table, h: string, name: string): Table {
    t.(byHash := t.byHash[h := name], recorded := t.recorded + [h], newHashes := t.newHashes + [h],
       taken := t.taken + {name})
  }

  function Reserving(t: Table, h: string, name: string): Table {
    t.(provisional := t.provisional[h := name], taken := t.taken + {name}, overflowed := true)
  }

  lemma NamesGrow(byHash: map<string, string>, provisional: map<string, string>, h: string, name: string)
    requires h !in byHash + provisional
    ensures byHash[h := name] + provisional == (byHash + provisional)[h := name]
    ensures byHash + provisional[h := name] == (byHash + provisional)[h := name]
  {
  }

  lemma InputStays(input: seq<Entry>, t: Table, h: string, name: string)
    requires KeepsInput(input, t) && h !in t.byHash
    ensures KeepsInput(input, Recording(t, h, name))
  {
    assert t.recorded + [h] == Firsts(input) + (t.newHashes + [h]);
  }

  lemma RecordingKeeps(blocked: set<string>, input: seq<Entry>, t: Table, h: string, name: string)
    requires Consistent(blocked, input, t) && h !in t.Names() && name !in t.taken
    ensures Consistent(blocked, input, Recording(t, h, name))
    ensures Recording(t, h, name).Names() == t.Names()[h := name]
  {
    NameIsNew(Known(input), blocked + Columns(input), t.Names(), t.taken, h, name);
    NamesGrow(t.byHash, t.provisional, h, name);
    OrderGrows(t.recorded, h);
    KeysGrow(t.byHash, h, name);
    InputStays(input, t, h, name);
  }

  lemma ReservingKeeps(blocked: set<string>, input: seq<Entry>, t: Table, h: string, name: string)
    requires Consistent(blocked, input, t) && h !in t.Names() && name !in t.taken
    requires |t.byHash.Keys| >= MAX_FLATTEN_COLUMNS
    ensures Consistent(blocked, input, Reserving(t, h, name))
    ensures Reserving(t, h, name).Names() == t.Names()[h := name]
  {
    NameIsNew(Known(input), blocked + Columns(input), t.Names(), t.taken, h, name);
    NamesGrow(t.byHash, t.provisional, h, name);
    KeysGrow(t.provisional, h, name);
    assert h in t.provisional[h := name];
  }

  /** The registry after a path with hash `h` was given `name`. */
  function After(t: Table, h: string, name: string): Table {
    if h in t.Names() then t
    else if |t.byHash.Keys| < MAX_FLATTEN_COLUMNS then Recording(t, h, name)
    else Reserving(t, h, name)
  }

  /** A known hash has its name, a new one a name that was free. */
  predicate MayName(t: Table, h: string, name: string) {
    if h in t.Names() then name == t.Names()[h] else name !in t.taken
  }

  lemma AfterKeeps(blocked: set<string>, input: seq<Entry>, t: Table, h: string, name: string)
    requires Consistent(blocked, input, t) && MayName(t, h, name)
    ensures Consistent(blocked, input, After(t, h, name))
    ensures After(t, h, name).Names() == t.Names()[h := name] && After(t, h, name).taken <= t.taken + {name}
  {
    if h in t.Names() {
      assert t.Names()[h := name] == t.Names();
    } else if |t.byHash.Keys| < MAX_FLATTEN_COLUMNS {
      RecordingKeeps(blocked, input, t, h, name);
    } else {
      ReservingKeeps(blocked, input, t, h, name);
    }
  }

  // ---------------------------------------------------------------- loading and saving

  ghost predicate Loaded(blocked: set<string>, state: seq<Entry>, byHash: map<string, string>, recorded: seq<string>,
                         taken: set<string>) {
    && recorded == Firsts(state) && Elements(recorded) == byHash.Keys && Agrees(byHash, state)
    && taken == blocked + Columns(state)
  }

  lemma LoadNext(blocked: set<string>, state: seq<Entry>, e: Entry, byHash: map<string, string>, recorded: seq<string>,
                 taken: set<string>)
    requires Loaded(blocked, state, byHash, recorded, taken)
    ensures Loaded(blocked, state + [e], byHash[e.hash := e.column],
                   if e.hash in byHash then recorded else recorded + [e.hash], taken + {e.column})
  {
    var more := state + [e];
    assert Front(more) == state && Last(more) == e;
    KnownNext(state, e);
    FirstsFacts(state);
    FirstsFacts(more);
    var names := byHash[e.hash := e.column];
    forall h ensures Saved(more, h) == if h in names then Some(names[h]) else None {
      assert Saved(state, h) == if h in byHash then Some(byHash[h]) else None;
    }
  }

  /** The loop of the constructor (src/body.py:244-247). */
  method Load(existing: seq<Entry>, blocked: set<string>)
      returns (byHash: map<string, string>, recorded: seq<string>, order: seq<string>, taken: set<string>)
    ensures Loaded(blocked, existing, byHash, recorded, taken) && order == Hashes(existing)
    ensures |taken| <= |blocked| + |existing|
  {
    byHash, recorded, order, taken := map[], [], [], blocked;
    for i := 0 to |existing|
      invariant Loaded(blocked, existing[..i], byHash, recorded, taken) && order == Hashes(existing[..i])
      invariant |taken| <= |blocked| + i
    {
      var e := existing[i];
      LoadNext(blocked, existing[..i], e, byHash, recorded, taken);
      KnownNext(existing[..i], e);
      TakeSnoc(existing, i);
      if e.hash !in byHash {
        recorded := recorded + [e.hash];
      }
      byHash, order, taken := byHash[e.hash := e.column], order + [e.hash], taken + {e.column};
    }
    TakeAll(existing);
  }

  lemma LoadedIsConsistent(blocked: set<string>, input: seq<Entry>, byHash: map<string, string>, recorded: seq<string>,
                           taken: set<string>)
    requires Loaded(blocked, input, byHash, recorded, taken)
    ensures Consistent(blocked, input, Table(byHash, recorded, [], map[], taken, false))
  {
    var t := Table(byHash, recorded, [], map[], taken, false);
    FirstsFacts(input);
    assert t.Names() == byHash;
    assert Firsts(input) + [] == Firsts(input);
    forall h | h in byHash ensures byHash[h] in taken && h in Known(input) {
      assert Saved(input, h) == Some(byHash[h]);
      SavedIsKnown(input, h);
    }
  }

  /** The saved state holds the recorded names and nothing else, each hash once. */
  ghost predicate SavesAll(blocked: set<string>, input: seq<Entry>, t: Table, state: seq<Entry>) {
    && DistinctHashes(state) && Agrees(t.byHash, state) && |state| == |t.byHash.Keys|
    && Hashes(state) == Firsts(input) + t.newHashes
    && (DistinctHashes(input) ==> input <= state) && (WellFormed(input, blocked) ==> WellFormed(state, blocked))
  }

  lemma InputComesFirst(input: seq<Entry>, t: Table, state: seq<Entry>)
    requires KeepsInput(input, t) && Elements(t.recorded) == t.byHash.Keys && state == Listed(t.byHash, t.recorded)
    requires DistinctHashes(input)
    ensures input <= state
  {
    FirstsFacts(input);
    forall i | 0 <= i < |input| ensures state[i] == input[i] {
      SavedAt(input, i);
      assert t.recorded[i] == Firsts(input)[i] == input[i].hash;
    }
  }

  lemma SavedIsWellFormed(blocked: set<string>, input: seq<Entry>, t: Table, state: seq<Entry>)
    requires Consistent(blocked, input, t) && state == Listed(t.byHash, t.recorded) && WellFormed(input, blocked)
    requires DistinctHashes(state)
    ensures WellFormed(state, blocked)
  {
    InputComesFirst(input, t, state);
    FirstsFacts(input);
    forall i | 0 <= i < |state| ensures state[i].column !in blocked {
      assert t.Names()[t.recorded[i]] == state[i].column;
      if i < |input| {
        assert input[i].column in Columns(input);
      } else {
        NotStored(input, t, i);
      }
    }
    forall i, j | 0 <= i < j < |state| ensures state[i].column != state[j].column {
      SavedColumnsDiffer(blocked, input, t, state, i, j);
    }
  }

  lemma SavedColumnsDiffer(blocked: set<string>, input: seq<Entry>, t: Table, state: seq<Entry>, i: nat, j: nat)
    requires Consistent(blocked, input, t) && state == Listed(t.byHash, t.recorded) && WellFormed(input, blocked)
    requires input <= state && i < j < |state|
    ensures state[i].column != state[j].column
  {
    if j >= |input| {
      NotStored(input, t, j);
      OwnName(Known(input), t.Names(), t.recorded[i], t.recorded[j]);
    }
  }

  lemma OwnName(known: set<string>, names: map<string, string>, g: string, h: string)
    requires OwnNames(known, names) && g in names && h in names && g != h && h !in known
    ensures names[g] != names[h]
  {
  }

  lemma NotStored(input: seq<Entry>, t: Table, i: nat)
    requires DistinctHashes(input) && KeepsInput(input, t) && Distinct(t.recorded) && |input| <= i < |t.recorded|
    ensures t.recorded[i] !in Known(input)
  {
    FirstsFacts(input);
    forall k | 0 <= k < |Firsts(input)| ensures Firsts(input)[k] != t.recorded[i] {
      assert t.recorded[k] == Firsts(input)[k];
    }
  }

  lemma TableIsSaved(blocked: set<string>, input: seq<Entry>, t: Table)
    requires Consistent(blocked, input, t)
    ensures SavesAll(blocked, input, t, Listed(t.byHash, t.recorded))
  {
    ListedAgrees(t.byHash, t.recorded);
    if DistinctHashes(input) {
      InputComesFirst(input, t, Listed(t.byHash, t.recorded));
    }
    if WellFormed(input, blocked) {
      SavedIsWellFormed(blocked, input, t, Listed(t.byHash, t.recorded));
    }
  }

  // ---------------------------------------------------------------- the split of a row as a value

  ghost predicate DistinctPaths(fields: seq<Field>) {
    forall i, j :: 0 <= i < j < |fields| ==> fields[i].path != fields[j].path
  }

  /** No two fields of the row share a name. */
  ghost predicate NamesApart(names: map<string, string>, hash: Path -> string, fields: seq<Field>) {
    forall i, j :: 0 <= i < j < |fields| && hash(fields[i].path) in names && hash(fields[j].path) in names ==>
      names[hash(fields[i].path)] != names[hash(fields[j].path)]
  }

  /** Every field has one cell of its own, under its name: a column value when its path came with the input state, an
    entry of the unmapped cell otherwise; and there is no other cell. */
  ghost predicate Placed(names: map<string, string>, input: set<string>, hash: Path -> string, fields: seq<Field>,
                         values: map<string, string>, unmapped: map<string, string>) {
    && AllCells(names, input, hash, fields, values, unmapped)
    && values.Keys !! unmapped.Keys && |values.Keys| + |unmapped.Keys| == |fields|
    && AllUsed(names, hash, fields, values.Keys) && AllUsed(names, hash, fields, unmapped.Keys)
  }

  ghost predicate Cell(names: map<string, string>, input: set<string>, values: map<string, string>,
                       unmapped: map<string, string>, h: string, cell: string) {
    && h in names
    && if h in input then names[h] in values && values[names[h]] == cell
       else names[h] in unmapped && unmapped[names[h]] == cell
  }

  ghost predicate AllCells(names: map<string, string>, input: set<string>, hash: Path -> string, fields: seq<Field>,
                           values: map<string, string>, unmapped: map<string, string>) {
    forall i :: 0 <= i < |fields| ==> Cell(names, input, values, unmapped, hash(fields[i].path), fields[i].cell)
  }

  ghost predicate Used(names: map<string, string>, hash: Path -> string, fields: seq<Field>, name: string) {
    exists i :: 0 <= i < |fields| && hash(fields[i].path) in names && names[hash(fields[i].path)] == name
  }

  /** The next field gets a key that no field before it has. */
  lemma NewKey(names: map<string, string>, hash: Path -> string, fields: seq<Field>, i: nat)
    requires NamesApart(names, hash, fields) && i < |fields| && hash(fields[i].path) in names
    ensures !Used(names, hash, fields[..i], names[hash(fields[i].path)])
  {
  }

  ghost predicate AllUsed(names: map<string, string>, hash: Path -> string, fields: seq<Field>, keys: set<string>) {
    forall key :: key in keys ==> Used(names, hash, fields, key)
  }

  lemma UsedNext(names: map<string, string>, hash: Path -> string, fields: seq<Field>, i: nat, keys: set<string>)
    requires i < |fields| && hash(fields[i].path) in names && AllUsed(names, hash, fields[..i], keys)
    ensures AllUsed(names, hash, fields[..i + 1], keys)
    ensures AllUsed(names, hash, fields[..i + 1], keys + {names[hash(fields[i].path)]})
  {
  }

  /** Setting a new key leaves every cell before it. */
  lemma CellsStay(names: map<string, string>, input: set<string>, hash: Path -> string, fields: seq<Field>,
                  values: map<string, string>, unmapped: map<string, string>, key: string, cell: string)
    requires AllCells(names, input, hash, fields, values, unmapped) && key !in values && key !in unmapped
    ensures AllCells(names, input, hash, fields, values[key := cell], unmapped)
    ensures AllCells(names, input, hash, fields, values, unmapped[key := cell])
  {
  }

  lemma OneCellMore(names: map<string, string>, input: set<string>, hash: Path -> string, fields: seq<Field>, i: nat,
                    values: map<string, string>, unmapped: map<string, string>)
    requires i < |fields| && AllCells(names, input, hash, fields[..i], values, unmapped)
    requires Cell(names, input, values, unmapped, hash(fields[i].path), fields[i].cell)
    ensures AllCells(names, input, hash, fields[..i + 1], values, unmapped)
  {
  }

  lemma PlaceValue(names: map<string, string>, input: set<string>, hash: Path -> string, fields: seq<Field>, i: nat,
                   values: map<string, string>, unmapped: map<string, string>, key: string, cell: string)
    requires i < |fields| && hash(fields[i].path) in names && hash(fields[i].path) in input
    requires Placed(names, input, hash, fields[..i], values, unmapped)
    requires key == names[hash(fields[i].path)] && cell == fields[i].cell && key !in values && key !in unmapped
    ensures Placed(names, input, hash, fields[..i + 1], values[key := cell], unmapped)
  {
    UsedNext(names, hash, fields, i, values.Keys);
    UsedNext(names, hash, fields, i, unmapped.Keys);
    CellsStay(names, input, hash, fields[..i], values, unmapped, key, cell);
    KeysGrow(values, key, cell);
    OneCellMore(names, input, hash, fields, i, values[key := cell], unmapped);
  }

  lemma PlaceUnmapped(names: map<string, string>, input: set<string>, hash: Path -> string, fields: seq<Field>, i: nat,
                      values: map<string, string>, unmapped: map<string, string>, key: string, cell: string)
    requires i < |fields| && hash(fields[i].path) in names && hash(fields[i].path) !in input
    requires Placed(names, input, hash, fields[..i], values, unmapped)
    requires key == names[hash(fields[i].path)] && cell == fields[i].cell && key !in values && key !in unmapped
    ensures Placed(names, input, hash, fields[..i + 1], values, unmapped[key := cell])
  {
    UsedNext(names, hash, fields, i, values.Keys);
    UsedNext(names, hash, fields, i, unmapped.Keys);
    CellsStay(names, input, hash, fields[..i], values, unmapped, key, cell);
    KeysGrow(unmapped, key, cell);
    OneCellMore(names, input, hash, fields, i, values, unmapped[key := cell]);
  }

  /** Exactly one of the two maps gets one new cell. */
  lemma PlaceNext(names: map<string, string>, input: set<string>, hash: Path -> string, fields: seq<Field>, i: nat,
                  values: map<string, string>, unmapped: map<string, string>)
    requires NamesApart(names, hash, fields) && i < |fields| && hash(fields[i].path) in names
    requires Placed(names, input, hash, fields[..i], values, unmapped)
    ensures hash(fields[i].path) in input ==>
      Placed(names, input, hash, fields[..i + 1], values[names[hash(fields[i].path)] := fields[i].cell], unmapped)
    ensures hash(fields[i].path) !in input ==>
      Placed(names, input, hash, fields[..i + 1], values, unmapped[names[hash(fields[i].path)] := fields[i].cell])
  {
    var h := hash(fields[i].path);
    NewKey(names, hash, fields, i);
    if h in input {
      PlaceValue(names, input, hash, fields, i, values, unmapped, names[h], fields[i].cell);
    } else {
      PlaceUnmapped(names, input, hash, fields, i, values, unmapped, names[h], fields[i].cell);
    }
  }

  /** In a row of different paths, no two fields share a name when the stored columns differ. */
  lemma StoredApart(blocked: set<string>, input: seq<Entry>, t: Table, hash: Path -> string, fields: seq<Field>)
    requires Consistent(blocked, input, t) && WellFormed(input, blocked) && HashInjective(hash) && DistinctPaths(fields)
    ensures NamesApart(t.Names(), hash, fields)
  {
    forall i, j | 0 <= i < j < |fields| && hash(fields[i].path) in t.Names() && hash(fields[j].path) in t.Names()
      ensures t.Names()[hash(fields[i].path)] != t.Names()[hash(fields[j].path)]
    {
      StoredNamesDiffer(blocked, input, t, hash(fields[i].path), hash(fields[j].path));
    }
  }

  lemma StoredNamesDiffer(blocked: set<string>, input: seq<Entry>, t: Table, g: string, h: string)
    requires Consistent(blocked, input, t) && WellFormed(input, blocked) && g != h && g in t.Names() && h in t.Names()
    ensures t.Names()[g] != t.Names()[h]
  {
    if g in Known(input) && h in Known(input) {
      var i :| 0 <= i < |input| && input[i].hash == g;
      var j :| 0 <= j < |input| && input[j].hash == h;
      StoredName(input, t, i);
      StoredName(input, t, j);
    } else if h in Known(input) {
      OwnName(Known(input), t.Names(), h, g);
    } else {
      OwnName(Known(input), t.Names(), g, h);
    }
  }

  lemma StoredName(input: seq<Entry>, t: Table, i: nat)
    requires DistinctHashes(input) && KeepsInput(input, t) && t.provisional.Keys !! t.byHash.Keys && i < |input|
    ensures input[i].hash in t.Names() && t.Names()[input[i].hash] == input[i].column
  {
    SavedAt(input, i);
  }

  /** One field goes to its column or to the unmapped cell. */
  method Put(ghost names: map<string, string>, ghost input: set<string>, ghost hash: Path -> string,
             fields: seq<Field>, i: nat, name: string, isInput: bool, values: map<string, string>,
             unmapped: map<string, string>)
      returns (values': map<string, string>, unmapped': map<string, string>)
    requires i < |fields| && hash(fields[i].path) in names
    requires name == names[hash(fields[i].path)] && (isInput <==> hash(fields[i].path) in input)
    ensures NamesApart(names, hash, fields) && Placed(names, input, hash, fields[..i], values, unmapped) ==>
      Placed(names, input, hash, fields[..i + 1], values', unmapped')
  {
    if NamesApart(names, hash, fields) && Placed(names, input, hash, fields[..i], values, unmapped) {
      PlaceNext(names, input, hash, fields, i, values, unmapped);
    }
    values', unmapped' := values, unmapped;
    if isInput {
      values' := values[name := fields[i].cell];
    } else {
      unmapped' := unmapped[name := fields[i].cell];
    }
  }

  ghost predicate AllRegistered(names: map<string, string>, hash: Path -> string, fields: seq<Field>) {
    forall i :: 0 <= i < |fields| ==> hash(fields[i].path) in names
  }

  method SplitFields(names: map<string, string>, inputOrder: seq<string>, hash: Path -> string, fields: seq<Field>)
      returns (r: Split)
    ensures r.Split? && NamesApart(names, hash, fields) ==>
      Placed(names, Elements(inputOrder), hash, fields, r.values, r.unmapped)
    ensures !r.TooLarge? && (r.NeverRegistered? <==> !AllRegistered(names, hash, fields))
  {
    var values, unmapped := map[], map[];
    for i := 0 to |fields|
      invariant AllRegistered(names, hash, fields[..i])
      invariant NamesApart(names, hash, fields) ==>
          Placed(names, Elements(inputOrder), hash, fields[..i], values, unmapped)
    {
      var h := hash(fields[i].path);
      if h !in names {
        return NeverRegistered(fields[i].path);
      }
      TakeSnoc(fields, i);
      values, unmapped :=
        Put(names, Elements(inputOrder), hash, fields, i, names[h], h in inputOrder, values, unmapped);
    }
    TakeAll(fields);
    r := Split(values, unmapped);
  }

  // ---------------------------------------------------------------- the registry

  class FlattenRegistry {
    const lib: Library
    const blocked: set<string>
    ghost const input: seq<Entry>
    var inputOrder: seq<string>
    var table: Table

    ghost predicate Valid()
      reads this
    {
      Consistent(blocked, input, table) && inputOrder == Hashes(input)
    }

    constructor (lib: Library, existing: seq<Entry>, reserved: set<string>)
      ensures Valid() && this.lib == lib && blocked == reserved + {UNMAPPED} && input == existing
      ensures Agrees(table.byHash, existing) && table.taken == blocked + Columns(existing)
      ensures table.newHashes == [] && table.provisional == map[] && |table.taken| <= |reserved| + 1 + |existing|
    {
      var byHash, recorded, order, taken := Load(existing, reserved + {UNMAPPED});
      this.lib, blocked, input := lib, reserved + {UNMAPPED}, existing;
      inputOrder, table := order, Table(byHash, recorded, [], map[], taken, false);
      LoadedIsConsistent(reserved + {UNMAPPED}, existing, byHash, recorded, taken);
    }

    /** The stable name of a path; past 1000 recorded names a new path gets a name for this run only
      (src/body.py:262-278). */
    method Register(path: Path) returns (name: string)
      requires Valid()
      modifies this`table
      ensures Valid() && MayName(old(table), lib.hash(path), name) && table == After(old(table), lib.hash(path), name)
      ensures lib.hash(path) in old(table).Names() || FirstFree(ColumnNameFor(lib, path), old(table).taken, name)
    {
      var h := lib.hash(path);
      if h in table.byHash {
        name := table.byHash[h];
      } else if h in table.provisional {
        name := table.provisional[h];
      } else {
        name := UniqueName(lib, path, table.taken);
      }
      AfterKeeps(blocked, input, table, h, name);
      if h !in table.byHash && h !in table.provisional {
        if |table.byHash.Keys| >= MAX_FLATTEN_COLUMNS {
          table := Reserving(table, h, name);
        } else {
          table := Recording(table, h, name);
        }
      }
    }

    /** What the next run starts from (src/body.py:292-293): every recorded name once, this run's input first. */
    method ToState() returns (state: seq<Entry>)
      requires Valid()
      ensures SavesAll(blocked, input, table, state)
    {
      TableIsSaved(blocked, input, table);
      state := Listed(table.byHash, table.recorded);
    }

    /** `split` (src/body.py:295-320): the cells of one row, or the error for a path that was never registered. */
    method SplitRow(fields: seq<Field>, size: map<string, string> -> nat, limit: nat) returns (r: Split)
      requires Valid()
      ensures r.NeverRegistered? <==> !AllRegistered(table.Names(), lib.hash, fields)
      ensures r.Split? && NamesApart(table.Names(), lib.hash, fields) ==>
        Placed(table.Names(), Elements(inputOrder), lib.hash, fields, r.values, r.unmapped)
      ensures r.Split? ==> r.unmapped == map[] || size(r.unmapped) <= limit
      ensures r.TooLarge? && NamesApart(table.Names(), lib.hash, fields) ==>
        exists values, unmapped ::
          && Placed(table.Names(), Elements(inputOrder), lib.hash, fields, values, unmapped)
          && unmapped != map[] && size(unmapped) > limit
    {
      r := SplitFields(table.Names(), inputOrder, lib.hash, fields);
      if r.Split? && r.unmapped != map[] && size(r.unmapped) > limit {
        r := TooLarge;
      }
    }
  }

  // ---------------------------------------------------------------- runs

  ghost function HashesOf(hash: Path -> string, paths: seq<Path>): set<string> {
    set p | p in paths :: hash(p)
  }

  /** The paths before `x` comes first. */
  function Before(paths: seq<Path>, x: Path): seq<Path> {
    if paths == [] then [] else if x in Front(paths) then Before(Front(paths), x) else Front(paths)
  }

  /** When `x` is registered for the first time, fewer than 1000 hashes are recorded: those of the input state and of
    the paths before it. */
  ghost predicate HasRoom(hash: Path -> string, input: seq<Entry>, paths: seq<Path>, x: Path) {
    |Known(input) + HashesOf(hash, Before(paths, x))| < MAX_FLATTEN_COLUMNS
  }

  /** The hashes registered so far, and which of them are recorded. */
  ghost predicate RecordedExactly(hash: Path -> string, input: seq<Entry>, paths: seq<Path>, recorded: set<string>,
                                  named: set<string>) {
    && named == Known(input) + HashesOf(hash, paths)
    && forall p :: p in paths ==> RecordedRight(hash, input, paths, recorded, p)
  }

  ghost predicate RecordedRight(hash: Path -> string, input: seq<Entry>, paths: seq<Path>, recorded: set<string>,
                                p: Path) {
    hash(p) in recorded <==> hash(p) in Known(input) || HasRoom(hash, input, paths, p)
  }

  lemma HashesNext(hash: Path -> string, paths: seq<Path>, x: Path)
    ensures HashesOf(hash, paths + [x]) == HashesOf(hash, paths) + {hash(x)} && Front(paths + [x]) == paths
  {
  }

  lemma KnownIsRecorded(blocked: set<string>, input: seq<Entry>, t: Table, h: string)
    requires Consistent(blocked, input, t) && h in Known(input)
    ensures h in t.byHash && Saved(input, h) == Some(t.byHash[h])
  {
    SavedIsKnown(input, h);
  }

  ghost predicate ExactIn(hash: Path -> string, input: seq<Entry>, paths: seq<Path>, t: Table) {
    RecordedExactly(hash, input, paths, t.byHash.Keys, t.Names().Keys) && t.newHashes == NewHashes(hash, input, paths)
  }

  /** The hashes this run records, in the order in which their paths first come. */
  ghost function NewHashes(hash: Path -> string, input: seq<Entry>, paths: seq<Path>): seq<string> {
    if paths == [] then []
    else
      var before, x := Front(paths), Last(paths);
      if x in before || hash(x) in Known(input) || |Known(input) + HashesOf(hash, before)| >= MAX_FLATTEN_COLUMNS
      then NewHashes(hash, input, before)
      else NewHashes(hash, input, before) + [hash(x)]
  }

  lemma NewHashesNext(hash: Path -> string, input: seq<Entry>, paths: seq<Path>, x: Path, recorded: set<string>,
                      named: set<string>)
    requires HashInjective(hash) && named == Known(input) + HashesOf(hash, paths) && Counted(input, recorded, named)
    ensures NewHashes(hash, input, paths + [x]) ==
      NewHashes(hash, input, paths) + if hash(x) in named || |recorded| >= MAX_FLATTEN_COLUMNS then [] else [hash(x)]
  {
    assert Front(paths + [x]) == paths && Last(paths + [x]) == x;
    assert hash(x) in HashesOf(hash, paths) <==> x in paths;
  }

  lemma AfterNewHashes(t: Table, h: string, name: string)
    ensures After(t, h, name).newHashes ==
      t.newHashes + if h in t.Names() || |t.byHash.Keys| >= MAX_FLATTEN_COLUMNS then [] else [h]
  {
  }

  lemma BeforeNext(paths: seq<Path>, x: Path, p: Path)
    ensures Before(paths + [x], p) == if p in paths then Before(paths, p) else paths
  {
    assert Front(paths + [x]) == paths;
  }

  /** The cap counts the known hashes, and those are recorded. */
  ghost predicate Counted(input: seq<Entry>, recorded: set<string>, named: set<string>) {
    && (|recorded| < MAX_FLATTEN_COLUMNS <==> |named| < MAX_FLATTEN_COLUMNS) && Known(input) <= recorded
  }

  lemma CapCountsAll(blocked: set<string>, input: seq<Entry>, t: Table)
    requires Consistent(blocked, input, t)
    ensures Counted(input, t.byHash.Keys, t.Names().Keys)
  {
    forall h | h in Known(input) ensures h in t.byHash {
      KnownIsRecorded(blocked, input, t, h);
    }
    SubsetSize(t.byHash.Keys, t.Names().Keys);
    if t.provisional == map[] {
      assert t.Names() == t.byHash;
    }
  }

  /** The recorded hashes after `h` was registered. */
  ghost function RecordedAfter(recorded: set<string>, named: set<string>, h: string): set<string> {
    if h in named || |recorded| >= MAX_FLATTEN_COLUMNS then recorded else recorded + {h}
  }

  lemma KeysSet(names: map<string, string>, h: string, name: string)
    ensures names[h := name].Keys == names.Keys + {h}
  {
  }

  lemma AfterRecords(t: Table, h: string, name: string)
    ensures After(t, h, name).byHash.Keys == RecordedAfter(t.byHash.Keys, t.Names().Keys, h)
  {
    if h !in t.Names() {
      KeysGrow(t.byHash, h, name);
    }
  }

  lemma NextIsRecordedRight(hash: Path -> string, input: seq<Entry>, paths: seq<Path>, x: Path, recorded: set<string>,
                            named: set<string>)
    requires HashInjective(hash) && named == Known(input) + HashesOf(hash, paths) && x !in paths
    requires Counted(input, recorded, named) && recorded <= named
    ensures RecordedRight(hash, input, paths + [x], RecordedAfter(recorded, named, hash(x)), x)
  {
    BeforeNext(paths, x, x);
    assert hash(x) !in HashesOf(hash, paths);
  }

  lemma PastIsRecordedRight(hash: Path -> string, input: seq<Entry>, paths: seq<Path>, x: Path, recorded: set<string>,
                            named: set<string>, p: Path)
    requires named == Known(input) + HashesOf(hash, paths) && p in paths
    requires RecordedRight(hash, input, paths, recorded, p)
    ensures RecordedRight(hash, input, paths + [x], RecordedAfter(recorded, named, hash(x)), p)
  {
    BeforeNext(paths, x, p);
    assert hash(p) in HashesOf(hash, paths);
  }

  lemma RegisteredNext(hash: Path -> string, input: seq<Entry>, paths: seq<Path>, x: Path, recorded: set<string>,
                       named: set<string>)
    requires HashInjective(hash) && RecordedExactly(hash, input, paths, recorded, named)
    requires Counted(input, recorded, named) && recorded <= named
    ensures RecordedExactly(hash, input, paths + [x], RecordedAfter(recorded, named, hash(x)), named + {hash(x)})
  {
    HashesNext(hash, paths, x);
    forall p | p in paths + [x]
      ensures RecordedRight(hash, input, paths + [x], RecordedAfter(recorded, named, hash(x)), p)
    {
      if p in paths {
        PastIsRecordedRight(hash, input, paths, x, recorded, named, p);
      } else {
        NextIsRecordedRight(hash, input, paths, x, recorded, named);
      }
    }
  }

  /** The names one run gave to `paths`. */
  ghost predicate GaveNames(names: map<string, string>, hash: Path -> string, paths: seq<Path>, given: seq<string>) {
    && |given| == |paths|
    && forall j :: 0 <= j < |paths| ==> hash(paths[j]) in names && names[hash(paths[j])] == given[j]
  }

  lemma GaveOneMore(names: map<string, string>, hash: Path -> string, paths: seq<Path>, given: seq<string>, x: Path,
                    name: string)
    requires GaveNames(names, hash, paths, given) && (hash(x) in names ==> names[hash(x)] == name)
    ensures GaveNames(names[hash(x) := name], hash, paths + [x], given + [name])
  {
  }

  /** What a run promises about the names it gave to its paths and the state it saves. */
  ghost predicate GoodRun(hash: Path -> string, blocked: set<string>, state: seq<Entry>, paths: seq<Path>,
                          given: seq<string>, state': seq<Entry>) {
    && |given| == |paths| && Extends(blocked, state, state') && OnlyThese(hash, state, paths, state')
    && (forall i :: 0 <= i < |paths| ==> GoodName(hash, blocked, state, paths, paths[i], given[i], state'))
    && (forall i, j :: 0 <= i < |paths| && 0 <= j < |paths| && given[i] == given[j] ==>
          paths[i] == paths[j] || (hash(paths[i]) in Known(state) && hash(paths[j]) in Known(state)))
  }

  /** The saved state keeps every stored column, in place when no hash was stored twice. */
  ghost predicate Extends(blocked: set<string>, state: seq<Entry>, state': seq<Entry>) {
    && DistinctHashes(state') && (DistinctHashes(state) ==> state <= state')
    && (WellFormed(state, blocked) ==> WellFormed(state', blocked))
    && forall h :: Saved(state, h).Some? ==> Saved(state', h) == Saved(state, h)
  }

  /** Nothing is saved but what was stored, in the order of first entries, and what this run met and had room for, in
    the order in which it first came. */
  ghost predicate OnlyThese(hash: Path -> string, state: seq<Entry>, paths: seq<Path>, state': seq<Entry>) {
    Hashes(state') == Firsts(state) + NewHashes(hash, state, paths)
  }

  /** A stored path has its stored column; a new one has a name that no stored or blocked column has. The name is saved
    exactly if the path was stored before or there was room for it when it first came; otherwise nothing is. */
  ghost predicate GoodName(hash: Path -> string, blocked: set<string>, state: seq<Entry>, paths: seq<Path>, path: Path,
                           name: string, state': seq<Entry>) {
    && (hash(path) in Known(state) ==> Saved(state, hash(path)) == Some(name))
    && (hash(path) !in Known(state) ==> name !in blocked + Columns(state))
    && Saved(state', hash(path)) ==
       if hash(path) in Known(state) || HasRoom(hash, state, paths, path) then Some(name) else None
  }

  lemma NameIsGood(hash: Path -> string, blocked: set<string>, input: seq<Entry>, t: Table, paths: seq<Path>,
                   path: Path, state': seq<Entry>)
    requires Consistent(blocked, input, t) && ExactIn(hash, input, paths, t) && Agrees(t.byHash, state')
    requires path in paths && hash(path) in t.Names()
    ensures GoodName(hash, blocked, input, paths, path, t.Names()[hash(path)], state')
  {
    if hash(path) in Known(input) {
      KnownIsRecorded(blocked, input, t, hash(path));
    }
    assert hash(path) in t.byHash ==> t.Names()[hash(path)] == t.byHash[hash(path)];
  }

  lemma RunExtends(hash: Path -> string, blocked: set<string>, input: seq<Entry>, t: Table, paths: seq<Path>,
                   state': seq<Entry>)
    requires Consistent(blocked, input, t) && ExactIn(hash, input, paths, t) && SavesAll(blocked, input, t, state')
    ensures Extends(blocked, input, state') && OnlyThese(hash, input, paths, state')
  {
    forall h | Saved(input, h).Some? ensures Saved(state', h) == Saved(input, h) {
      SavedIsKnown(input, h);
      KnownIsRecorded(blocked, input, t, h);
    }
  }

  lemma RunIsGood(hash: Path -> string, blocked: set<string>, input: seq<Entry>, t: Table, paths: seq<Path>,
                  given: seq<string>, state': seq<Entry>)
    requires HashInjective(hash) && Consistent(blocked, input, t) && ExactIn(hash, input, paths, t)
    requires GaveNames(t.Names(), hash, paths, given) && SavesAll(blocked, input, t, state')
    ensures GoodRun(hash, blocked, input, paths, given, state')
  {
    RunExtends(hash, blocked, input, t, paths, state');
    forall i | 0 <= i < |paths| ensures GoodName(hash, blocked, input, paths, paths[i], given[i], state') {
      NameIsGood(hash, blocked, input, t, paths, paths[i], state');
    }
  }

  ghost predicate Short(names: map<string, string>) {
    forall h :: h in names ==> |names[h]| <= MAX_NAME
  }

  ghost predicate ShortColumns(columns: set<string>) {
    forall column :: column in columns ==> |column| <= MAX_NAME
  }

  /** Short names in, and fewer than 10^63 names in all. */
  ghost predicate Roomy(lib: Library, existing: seq<Entry>, reserved: set<string>, paths: seq<Path>) {
    && ShortColumns(Columns(existing)) && (forall p :: |ColumnNameFor(lib, p)| <= MAX_NAME)
    && |reserved| + 1 + |existing| + |paths| + 2 < Pow10(63)
  }

  lemma ShortFromState(byHash: map<string, string>, state: seq<Entry>)
    requires Agrees(byHash, state) && ShortColumns(Columns(state))
    ensures Short(byHash)
  {
    forall h | h in byHash ensures |byHash[h]| <= MAX_NAME {
      SavedIsKnown(state, h);
    }
  }

  lemma ShortState(blocked: set<string>, input: seq<Entry>, t: Table, state: seq<Entry>)
    requires SavesAll(blocked, input, t, state) && Short(t.Names()) && t.provisional.Keys !! t.byHash.Keys
    ensures ShortColumns(Columns(state))
  {
    forall i | 0 <= i < |state| ensures |state[i].column| <= MAX_NAME {
      SavedAt(state, i);
      assert t.Names()[state[i].hash] == state[i].column;
    }
  }

  /** What a run keeps while it registers its paths. */
  ghost predicate Registered(lib: Library, blocked: set<string>, input: seq<Entry>, paths: seq<Path>,
                             given: seq<string>, t: Table, roomy: bool, size: nat) {
    && Consistent(blocked, input, t) && ExactIn(lib.hash, input, paths, t)
    && GaveNames(t.Names(), lib.hash, paths, given) && SmallNames(t, roomy, size)
  }

  ghost predicate SmallNames(t: Table, roomy: bool, size: nat) {
    |t.taken| <= size && (roomy ==> Short(t.Names()))
  }

  /** Registers one path, with everything a run needs to know about it. */
  method RegisterNext(registry: FlattenRegistry, path: Path, ghost paths: seq<Path>, ghost given: seq<string>,
                      ghost roomy: bool, ghost size: nat) returns (name: string)
    requires registry.Valid() && HashInjective(registry.lib.hash)
    requires Registered(registry.lib, registry.blocked, registry.input, paths, given, registry.table, roomy, size)
    requires roomy ==> |ColumnNameFor(registry.lib, path)| <= MAX_NAME && size + 2 < Pow10(63)
    modifies registry`table
    ensures registry.Valid()
    ensures Registered(registry.lib, registry.blocked, registry.input, paths + [path], given + [name], registry.table,
                       roomy, size + 1)
  {
    ghost var t := registry.table;
    name := registry.Register(path);
    NextIsRegistered(registry.lib, registry.blocked, registry.input, paths, given, t, roomy, size, path, name);
  }

  lemma NextIsRegistered(lib: Library, blocked: set<string>, input: seq<Entry>, paths: seq<Path>, given: seq<string>,
                         t: Table, roomy: bool, size: nat, path: Path, name: string)
    requires HashInjective(lib.hash) && Registered(lib, blocked, input, paths, given, t, roomy, size)
    requires MayName(t, lib.hash(path), name)
    requires lib.hash(path) in t.Names() || FirstFree(ColumnNameFor(lib, path), t.taken, name)
    requires roomy ==> |ColumnNameFor(lib, path)| <= MAX_NAME && size + 2 < Pow10(63)
    ensures Registered(lib, blocked, input, paths + [path], given + [name], After(t, lib.hash(path), name), roomy,
                       size + 1)
  {
    AfterKeeps(blocked, input, t, lib.hash(path), name);
    CapCountsAll(blocked, input, t);
    ExactNext(lib.hash, input, paths, t, path, name);
    GaveOneMore(t.Names(), lib.hash, paths, given, path, name);
    StaySmall(ColumnNameFor(lib, path), t, After(t, lib.hash(path), name), roomy, size, lib.hash(path), name);
  }

  lemma ExactNext(hash: Path -> string, input: seq<Entry>, paths: seq<Path>, t: Table, path: Path, name: string)
    requires HashInjective(hash) && ExactIn(hash, input, paths, t) && Counted(input, t.byHash.Keys, t.Names().Keys)
    requires After(t, hash(path), name).Names() == t.Names()[hash(path) := name]
    ensures ExactIn(hash, input, paths + [path], After(t, hash(path), name))
  {
    AfterRecords(t, hash(path), name);
    KeysSet(t.Names(), hash(path), name);
    AfterNewHashes(t, hash(path), name);
    NewHashesNext(hash, input, paths, path, t.byHash.Keys, t.Names().Keys);
    RegisteredNext(hash, input, paths, path, t.byHash.Keys, t.Names().Keys);
  }

  lemma StaySmall(base: string, t: Table, t': Table, roomy: bool, size: nat, h: string, name: string)
    requires SmallNames(t, roomy, size) && t'.Names() == t.Names()[h := name] && t'.taken <= t.taken + {name}
    requires MayName(t, h, name) && (h in t.Names() || FirstFree(base, t.taken, name))
    requires roomy ==> |base| <= MAX_NAME && size + 2 < Pow10(63)
    ensures SmallNames(t', roomy, size + 1)
  {
    SubsetSize(t'.taken, t.taken + {name});
    if roomy && h !in t.Names() {
      UniqueNameIsBounded(base, t.taken, name);
    }
  }

  method RegisterAll(registry: FlattenRegistry, paths: seq<Path>, ghost roomy: bool, ghost size: nat)
      returns (given: seq<string>)
    requires registry.Valid() && HashInjective(registry.lib.hash)
    requires Registered(registry.lib, registry.blocked, registry.input, [], [], registry.table, roomy, size)
    requires roomy ==> (forall p :: |ColumnNameFor(registry.lib, p)| <= MAX_NAME) && size + |paths| + 2 < Pow10(63)
    modifies registry`table
    ensures registry.Valid()
    ensures Registered(registry.lib, registry.blocked, registry.input, paths, given, registry.table, roomy,
                       size + |paths|)
  {
    given := [];
    for i := 0 to |paths|
      invariant registry.Valid()
      invariant Registered(registry.lib, registry.blocked, registry.input, paths[..i], given, registry.table, roomy,
                           size + i)
    {
      var name := RegisterNext(registry, paths[i], paths[..i], given, roomy, size + i);
      TakeSnoc(paths, i);
      given := given + [name];
    }
    TakeAll(paths);
  }

  lemma RunBegins(lib: Library, blocked: set<string>, input: seq<Entry>, t: Table, roomy: bool, size: nat)
    requires Consistent(blocked, input, t) && Agrees(t.byHash, input) && t.provisional == map[] && |t.taken| <= size
    requires t.newHashes == []
    requires roomy ==> ShortColumns(Columns(input))
    ensures Registered(lib, blocked, input, [], [], t, roomy, size)
  {
    assert t.Names() == t.byHash;
    forall h ensures h in t.byHash <==> h in Known(input) {
      SavedIsKnown(input, h);
    }
    if roomy {
      ShortFromState(t.byHash, input);
    }
  }

  lemma ShortRun(lib: Library, blocked: set<string>, input: seq<Entry>, paths: seq<Path>, given: seq<string>, t: Table,
                 size: nat, state: seq<Entry>)
    requires Registered(lib, blocked, input, paths, given, t, true, size) && SavesAll(blocked, input, t, state)
    ensures ShortColumns(Columns(state)) && ShortColumns(Elements(given))
  {
    ShortState(blocked, input, t, state);
  }

  /** One run of the extractor as the registry sees it. */
  method RunRegistry(lib: Library, existing: seq<Entry>, reserved: set<string>, paths: seq<Path>)
      returns (state: seq<Entry>, given: seq<string>)
    requires HashInjective(lib.hash)
    ensures GoodRun(lib.hash, reserved + {UNMAPPED}, existing, paths, given, state)
    ensures Roomy(lib, existing, reserved, paths) ==> ShortColumns(Columns(state)) && ShortColumns(Elements(given))
  {
    var registry := new FlattenRegistry(lib, existing, reserved);
    ghost var roomy, size := Roomy(lib, existing, reserved, paths), |reserved| + 1 + |existing|;
    RunBegins(lib, registry.blocked, existing, registry.table, roomy, size);
    given := RegisterAll(registry, paths, roomy, size);
    state := registry.ToState();
    RunIsGood(lib.hash, registry.blocked, existing, registry.table, paths, given, state);
    if roomy {
      ShortRun(lib, registry.blocked, existing, paths, given, registry.table, size + |paths|, state);
    }
  }

  /** Any chain of runs, each starting from the state the one before it saved. */
  method RunChain(lib: Library, existing: seq<Entry>, reserved: set<string>, runs: seq<seq<Path>>)
      returns (states: seq<seq<Entry>>, given: seq<seq<string>>)
    requires HashInjective(lib.hash)
    ensures GoodChain(lib.hash, reserved + {UNMAPPED}, runs, states, given) && states[0] == existing
  {
    states, given := [existing], [];
    for i := 0 to |runs|
      invariant GoodChain(lib.hash, reserved + {UNMAPPED}, runs[..i], states, given) && states[0] == existing
    {
      var state, names := RunRegistry(lib, states[i], reserved, runs[i]);
      ChainGrows(lib.hash, reserved + {UNMAPPED}, runs[..i], states, given, runs[i], state, names);
      TakeSnoc(runs, i);
      states, given := states + [state], given + [names];
    }
    TakeAll(runs);
  }

  ghost predicate GoodChain(hash: Path -> string, blocked: set<string>, runs: seq<seq<Path>>, states: seq<seq<Entry>>,
                            given: seq<seq<string>>) {
    && |states| == |runs| + 1 && |given| == |runs|
    && forall i :: 0 <= i < |runs| ==> GoodAt(hash, blocked, runs, states, given, i)
  }

  ghost predicate GoodAt(hash: Path -> string, blocked: set<string>, runs: seq<seq<Path>>, states: seq<seq<Entry>>,
                         given: seq<seq<string>>, i: nat)
    requires |states| == |runs| + 1 && |given| == |runs| && i < |runs|
  {
    GoodRun(hash, blocked, states[i], runs[i], given[i], states[i + 1])
  }

  lemma ChainGrows(hash: Path -> string, blocked: set<string>, runs: seq<seq<Path>>, states: seq<seq<Entry>>,
                   given: seq<seq<string>>, next: seq<Path>, state: seq<Entry>, names: seq<string>)
    requires GoodChain(hash, blocked, runs, states, given)
    requires GoodRun(hash, blocked, states[|runs|], next, names, state)
    ensures GoodChain(hash, blocked, runs + [next], states + [state], given + [names])
  {
    forall i | 0 <= i < |runs + [next]|
      ensures GoodAt(hash, blocked, runs + [next], states + [state], given + [names], i)
    {
      if i < |runs| {
        assert GoodAt(hash, blocked, runs, states, given, i);
      }
    }
  }

  lemma StateExtends(hash: Path -> string, blocked: set<string>, runs: seq<seq<Path>>, states: seq<seq<Entry>>,
                     given: seq<seq<string>>, a: nat)
    requires GoodChain(hash, blocked, runs, states, given) && a < |runs|
    ensures Extends(blocked, states[a], states[a + 1])
  {
    assert GoodAt(hash, blocked, runs, states, given, a);
  }

  /** A stored column stays that path's column in every later state, and a well-formed state stays well-formed. */
  lemma {:induction false} ColumnsStay(hash: Path -> string, blocked: set<string>, runs: seq<seq<Path>>,
                                       states: seq<seq<Entry>>, given: seq<seq<string>>, a: nat, b: nat, h: string)
    requires GoodChain(hash, blocked, runs, states, given) && a <= b <= |runs|
    ensures Saved(states[a], h).Some? ==> Saved(states[b], h) == Saved(states[a], h)
    ensures DistinctHashes(states[a]) ==> DistinctHashes(states[b]) && states[a] <= states[b]
    ensures WellFormed(states[a], blocked) ==> WellFormed(states[b], blocked)
  {
    if a < b {
      ColumnsStay(hash, blocked, runs, states, given, a, b - 1, h);
      StateExtends(hash, blocked, runs, states, given, b - 1);
    }
  }

  lemma NameOfRun(hash: Path -> string, blocked: set<string>, runs: seq<seq<Path>>, states: seq<seq<Entry>>,
                  given: seq<seq<string>>, a: nat, i: nat)
    requires GoodChain(hash, blocked, runs, states, given) && a < |runs| && i < |runs[a]|
    ensures i < |given[a]|
    ensures GoodName(hash, blocked, states[a], runs[a], runs[a][i], given[a][i], states[a + 1])
  {
    assert GoodAt(hash, blocked, runs, states, given, a);
  }

  /** A name that a run saved for a path is the name of that path in every later run. */
  lemma NameForEver(hash: Path -> string, blocked: set<string>, runs: seq<seq<Path>>, states: seq<seq<Entry>>,
                    given: seq<seq<string>>, a: nat, b: nat, j: nat, name: string)
    requires GoodChain(hash, blocked, runs, states, given) && a < b < |runs| && j < |runs[b]|
    requires Saved(states[a + 1], hash(runs[b][j])) == Some(name)
    ensures j < |given[b]| && given[b][j] == name
  {
    ColumnsStay(hash, blocked, runs, states, given, a + 1, b, hash(runs[b][j]));
    NameOfRun(hash, blocked, runs, states, given, b, j);
    SavedIsKnown(states[b], hash(runs[b][j]));
  }

  /** A path keeps the name a run gave it through every later run, if it was stored before or there was room for it. */
  lemma GivenForEver(hash: Path -> string, blocked: set<string>, runs: seq<seq<Path>>, states: seq<seq<Entry>>,
                     given: seq<seq<string>>, a: nat, b: nat, i: nat, j: nat)
    requires GoodChain(hash, blocked, runs, states, given) && a < b < |runs| && i < |runs[a]| && j < |runs[b]|
    requires runs[a][i] == runs[b][j]
    requires hash(runs[a][i]) in Known(states[a]) || HasRoom(hash, states[a], runs[a], runs[a][i])
    ensures i < |given[a]| && j < |given[b]| && given[a][i] == given[b][j]
  {
    NameOfRun(hash, blocked, runs, states, given, a, i);
    NameForEver(hash, blocked, runs, states, given, a, b, j, given[a][i]);
  }
}
