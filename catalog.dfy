/** `ClientMod` (index.js:9-61): the game-data catalog, filled once when the
    host signals readiness. Each table is indexed by id with `Map.set`, so a
    later row replaces an earlier one with the same id; the localized string
    tables are then merged into the entries that exist, and string rows with
    no matching entry are dropped. The awaited query results are inputs. */
module Catalog {
  import opened Wrappers

  /** Attribute records, as the queries' attribute allow-lists request them. */
  datatype UserAttrs = UserAttrs(id: int, playerClass: string, race: string, gender: string)
  datatype ContinentAttrs = ContinentAttrs(id: int, channelType: int)
  datatype ItemAttrs = ItemAttrs(id: int, combatItemType: string, rareGrade: int)
  datatype AbnormalityAttrs = AbnormalityAttrs(
    id: int, bySkillCategory: int, infinity: bool, time: int,
    applyMethod: int, tickInterval: int, kind: int, value: int)

  /** The attributes of a child record (an abnormality's effect), unfiltered. */
  type Attributes = map<string, string>

  /** An abnormality query row with its child effect rows. */
  datatype AbnormalityRow = AbnormalityRow(attributes: AbnormalityAttrs, children: seq<Attributes>)

  /** An abnormality entry: its attributes with the effects attached. */
  datatype Abnormality = Abnormality(attributes: AbnormalityAttrs, effects: seq<Attributes>)

  /** A string-table row: the id and its localized name and tooltip
      (`string`/`toolTip` for items, `name`/`tooltip` for abnormalities). */
  datatype StringRow = StringRow(id: int, text: string, tooltip: string)

  /** A catalog entry that string rows can name: `name` and `tooltip` are
      absent until a string row with the entry's id is merged in. */
  datatype Named<A> = Named(base: A, name: Option<string>, tooltip: Option<string>)

  /** The results of the seven queries, in the order they are issued. */
  datatype Tables = Tables(
    userRows: seq<UserAttrs>,
    heroRows: seq<UserAttrs>,
    continentRows: seq<ContinentAttrs>,
    itemRows: seq<ItemAttrs>,
    itemStrings: seq<StringRow>,
    abnormalityRows: seq<AbnormalityRow>,
    abnormalityStrings: seq<StringRow>)

  function UserId(u: UserAttrs): int { u.id }
  function UserEntry(u: UserAttrs): UserAttrs { u }
  function ContinentId(c: ContinentAttrs): int { c.id }
  function ContinentEntry(c: ContinentAttrs): ContinentAttrs { c }
  function ItemId(i: ItemAttrs): int { i.id }
  function ItemEntry(i: ItemAttrs): Named<ItemAttrs> { Named(i, None, None) }
  function AbnormalityId(a: AbnormalityRow): int { a.attributes.id }
  /** `Object.assign(attributes, { effects: children.map(...) })` (index.js:49). */
  function AbnormalityEntry(a: AbnormalityRow): Named<Abnormality>
  {
    Named(Abnormality(a.attributes, a.children), None, None)
  }
  function StringId(s: StringRow): int { s.id }

  // ---------------------------------------------------------------------
  // Reference definition: the last row carrying an id.

  /** The last row of `rows` whose key is `k`, if any. */
  function LastWithKey<R>(rows: seq<R>, key: R -> int, k: int): (r: Option<R>)
    ensures r.None? <==> forall i :: 0 <= i < |rows| ==> key(rows[i]) != k
    ensures r.Some? ==> exists i :: 0 <= i < |rows| && rows[i] == r.value && key(rows[i]) == k
                                    && forall j :: i < j < |rows| ==> key(rows[j]) != k
    decreases |rows|
  {
    if rows == [] then None
    else if key(rows[|rows| - 1]) == k then Some(rows[|rows| - 1])
    else LastWithKey(rows[..|rows| - 1], key, k)
  }

  // ---------------------------------------------------------------------
  // The two loops of the ready handler, as folds.

  /** `rows.forEach(r => m.set(key(r), value(r)))` starting from `m0`. */
  function Indexed<R, V>(m0: map<int, V>, rows: seq<R>, key: R -> int, value: R -> V): map<int, V>
    decreases |rows|
  {
    if rows == [] then m0
    else
      var last := rows[|rows| - 1];
      Indexed(m0, rows[..|rows| - 1], key, value)[key(last) := value(last)]
  }

  /** `rows.forEach(r => { let e = m.get(r.id); if (e) Object.assign(e, {...}) })`. */
  function Merged<A>(m0: map<int, Named<A>>, rows: seq<StringRow>): map<int, Named<A>>
    decreases |rows|
  {
    if rows == [] then m0
    else
      var m := Merged(m0, rows[..|rows| - 1]);
      var row := rows[|rows| - 1];
      if row.id in m then m[row.id := m[row.id].(name := Some(row.text), tooltip := Some(row.tooltip))]
      else m
  }

  /** An id is indexed iff it was there before or some row carries it; its
      entry is built from the LAST such row, or is the old entry. */
  lemma {:induction false} IndexedLookup<R, V>(m0: map<int, V>, rows: seq<R>, key: R -> int, value: R -> V, k: int)
    ensures k in Indexed(m0, rows, key, value) <==> k in m0 || LastWithKey(rows, key, k).Some?
    ensures k in Indexed(m0, rows, key, value) ==>
      Indexed(m0, rows, key, value)[k] ==
        match LastWithKey(rows, key, k) case Some(r) => value(r) case None => m0[k]
    decreases |rows|
  {
    if rows != [] {
      IndexedLookup(m0, rows[..|rows| - 1], key, value, k);
    }
  }

  /** Merging string rows adds no entry and changes no base attributes: a
      string row whose id has no entry is dropped. An entry takes the name
      and tooltip of the LAST string row with its id and keeps its previous
      ones when there is none. */
  lemma {:induction false} MergedLookup<A>(m0: map<int, Named<A>>, rows: seq<StringRow>, k: int)
    ensures Merged(m0, rows).Keys == m0.Keys
    ensures k in m0 ==>
      && Merged(m0, rows)[k].base == m0[k].base
      && match LastWithKey(rows, StringId, k)
         case Some(r) => Merged(m0, rows)[k].name == Some(r.text) && Merged(m0, rows)[k].tooltip == Some(r.tooltip)
         case None => Merged(m0, rows)[k].name == m0[k].name && Merged(m0, rows)[k].tooltip == m0[k].tooltip
    decreases |rows|
  {
    if rows != [] {
      var prefix := rows[..|rows| - 1];
      MergedLookup(m0, prefix, k);
      MergedLookup(m0, prefix, rows[|rows| - 1].id);
    }
  }

  /** The forEach loop that indexes one query's rows. */
  method IndexRows<R, V>(m0: map<int, V>, rows: seq<R>, key: R -> int, value: R -> V)
    returns (m: map<int, V>)
    ensures m == Indexed(m0, rows, key, value)
    ensures forall k :: k in m <==> k in m0 || LastWithKey(rows, key, k).Some?
  {
    m := m0;
    var i := 0;
    while i < |rows|
      invariant 0 <= i <= |rows|
      invariant m == Indexed(m0, rows[..i], key, value)
    {
      assert rows[..i + 1][..i] == rows[..i];
      m := m[key(rows[i]) := value(rows[i])];
      i := i + 1;
    }
    assert rows[..i] == rows;
    forall k ensures k in m <==> k in m0 || LastWithKey(rows, key, k).Some? {
      IndexedLookup(m0, rows, key, value, k);
    }
  }

  /** The forEach loop that merges a string table into existing entries. */
  method MergeStrings<A>(m0: map<int, Named<A>>, rows: seq<StringRow>) returns (m: map<int, Named<A>>)
    ensures m == Merged(m0, rows)
    ensures m.Keys == m0.Keys
    ensures forall k :: k in m ==> m[k].base == m0[k].base
  {
    m := m0;
    var i := 0;
    while i < |rows|
      invariant 0 <= i <= |rows|
      invariant m == Merged(m0, rows[..i])
    {
      assert rows[..i + 1][..i] == rows[..i];
      var row := rows[i];
      if row.id in m {
        m := m[row.id := m[row.id].(name := Some(row.text), tooltip := Some(row.tooltip))];
      }
      i := i + 1;
    }
    assert rows[..i] == rows;
    forall k ensures k in m <==> k in m0 {
      MergedLookup(m0, rows, k);
    }
    forall k | k in m ensures m[k].base == m0[k].base {
      MergedLookup(m0, rows, k);
    }
  }

  /** The users the catalog holds: UserData, then HeroData overriding it by id
      when the major patch version is at least 99 (index.js:18-27). */
  function Users(m0: map<int, UserAttrs>, majorPatchVersion: int, t: Tables): map<int, UserAttrs>
  {
    Indexed(Indexed(m0, t.userRows, UserId, UserEntry),
            if majorPatchVersion >= 99 then t.heroRows else [], UserId, UserEntry)
  }

  /** A hero row replaces the user row with the same id, but only from major
      patch 99 on; before that, hero rows are not even queried. An id with no
      hero row keeps its UserData membership and entry either way. */
  lemma UsersLookup(m0: map<int, UserAttrs>, majorPatchVersion: int, t: Tables, k: int)
    ensures majorPatchVersion >= 99 && LastWithKey(t.heroRows, UserId, k).Some? ==>
      k in Users(m0, majorPatchVersion, t) && Users(m0, majorPatchVersion, t)[k] == LastWithKey(t.heroRows, UserId, k).value
    ensures (majorPatchVersion < 99 || LastWithKey(t.heroRows, UserId, k).None?) ==>
      (k in Users(m0, majorPatchVersion, t) <==> k in m0 || LastWithKey(t.userRows, UserId, k).Some?)
    ensures (majorPatchVersion < 99 || LastWithKey(t.heroRows, UserId, k).None?)
            && LastWithKey(t.userRows, UserId, k).Some? ==>
      Users(m0, majorPatchVersion, t)[k] == LastWithKey(t.userRows, UserId, k).value
  {
    var base := Indexed(m0, t.userRows, UserId, UserEntry);
    IndexedLookup(m0, t.userRows, UserId, UserEntry, k);
    IndexedLookup(base, if majorPatchVersion >= 99 then t.heroRows else [], UserId, UserEntry, k);
  }

  /** An item or abnormality entry exists iff its base table has a row for the
      id; its attributes come from the last such row, and it has a name and
      tooltip iff some string row carries its id (index.js:35-58). */
  lemma NamedCatalogLookup<R, A>(rows: seq<R>, key: R -> int, entry: R -> Named<A>, strings: seq<StringRow>, k: int)
    requires forall r :: entry(r).name == None && entry(r).tooltip == None
    ensures var m := Merged(Indexed(map[], rows, key, entry), strings);
      && (k in m <==> LastWithKey(rows, key, k).Some?)
      && (k in m ==> m[k].base == entry(LastWithKey(rows, key, k).value).base
                     && (m[k].name.Some? <==> LastWithKey(strings, StringId, k).Some?)
                     && (m[k].tooltip.Some? <==> LastWithKey(strings, StringId, k).Some?))
  {
    IndexedLookup(map[], rows, key, entry, k);
    MergedLookup(Indexed(map[], rows, key, entry), strings, k);
  }

  class ClientMod {
    var users: map<int, UserAttrs>
    var items: map<int, Named<ItemAttrs>>
    var continents: map<int, ContinentAttrs>
    var abnormalities: map<int, Named<Abnormality>>
    /** Whether the `once('ready')` listener has already run. */
    var readyHandled: bool

    constructor ()
      ensures users == map[] && items == map[] && continents == map[] && abnormalities == map[]
      ensures !readyHandled
    {
      users, items, continents, abnormalities := map[], map[], map[], map[];
      readyHandled := false;
    }

    /** The `ready` listener (index.js:16-59); registered with `once`, so a
        second `ready` finds no listener. */
    method OnReady(majorPatchVersion: int, t: Tables)
      modifies this
      ensures readyHandled
      ensures old(readyHandled) ==>
        users == old(users) && items == old(items) && continents == old(continents) && abnormalities == old(abnormalities)
      ensures !old(readyHandled) ==>
        && users == Users(old(users), majorPatchVersion, t)
        && continents == Indexed(old(continents), t.continentRows, ContinentId, ContinentEntry)
        && items == Merged(Indexed(old(items), t.itemRows, ItemId, ItemEntry), t.itemStrings)
        && abnormalities == Merged(Indexed(old(abnormalities), t.abnormalityRows, AbnormalityId, AbnormalityEntry), t.abnormalityStrings)
    {
      if readyHandled {
        return;
      }
      readyHandled := true;
      users := IndexRows(users, t.userRows, UserId, UserEntry);
      if majorPatchVersion >= 99 {
        users := IndexRows(users, t.heroRows, UserId, UserEntry);
      }
      continents := IndexRows(continents, t.continentRows, ContinentId, ContinentEntry);
      items := IndexRows(items, t.itemRows, ItemId, ItemEntry);
      items := MergeStrings(items, t.itemStrings);
      abnormalities := IndexRows(abnormalities, t.abnormalityRows, AbnormalityId, AbnormalityEntry);
      abnormalities := MergeStrings(abnormalities, t.abnormalityStrings);
    }
  }
}
