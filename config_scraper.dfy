/**
 * The scraper-config persistence rules of db/config_scraper.go over an
 * in-memory image of the tables they touch: `config_scrapers`,
 * `config_items`, and the `config_id` column of each table that references
 * config items. Every row is keyed by its primary key.
 *
 * Database failures are inputs: each operation takes the error, if any,
 * that each of its statements returns.
 */
module ScraperStore {
  import opened Wrappers

  type Uuid = string

  /** An instant: `time.Now()` on the application side, `NOW()` on the database side. */
  type Time = int

  /** uuid.Nil, the value gorm writes for an unset UUID column. */
  const NilUuid: Uuid := "00000000-0000-0000-0000-000000000000"

  /** models.Source values a scraper row can carry. */
  datatype Source = KubernetesCRD | ConfigFile | OtherSource(name: string)

  /** models.ConfigScraper, restricted to the columns these rules read or write. */
  datatype ScraperRow = ScraperRow(
    id: Uuid,
    name: string,
    source: Source,
    spec: string,
    agentId: Uuid,
    deletedAt: Option<Time>)

  /** A `config_items` row: its owner, if any, and its soft-delete stamp. */
  datatype ConfigItemRow = ConfigItemRow(
    id: Uuid,
    scraperId: Option<Uuid>,
    configType: string,
    deletedAt: Option<Time>)

  /** The tables whose `config_id` keeps a config item from being deleted (db/config_scraper.go:38-40). */
  const ForeignKeyTables: seq<string> := ["evidences"]

  /** SQL's three truth values. */
  datatype Truth = True | False | Unknown

  /**
   * `x IN (subquery)`: true when some value equals x, otherwise unknown when
   * the subquery yields a NULL, otherwise false.
   */
  function InList(x: Uuid, values: seq<Option<Uuid>>): (t: Truth)
    ensures t == True <==> Some(x) in values
    ensures t == False <==> Some(x) !in values && None !in values
  {
    if Some(x) in values then True
    else if None in values then Unknown
    else False
  }

  function Not(t: Truth): Truth {
    match t
    case True => False
    case False => True
    case Unknown => Unknown
  }

  /** A WHERE clause keeps a row only when its condition is true; `x NOT IN (...)` needs every value non-NULL and different. */
  lemma NotInHolds(x: Uuid, values: seq<Option<Uuid>>)
    ensures Not(InList(x, values)) == True <==> forall v :: v in values ==> v.Some? && v.value != x
  {
  }

  /** The value of `SELECT config_id FROM t1 UNION ... ` over `tables`, as a list (duplicates do not matter to IN). */
  function Referenced(referencing: map<string, seq<Option<Uuid>>>, tables: seq<string>): seq<Option<Uuid>>
    requires forall t :: t in tables ==> t in referencing
    decreases |tables|
  {
    if tables == [] then []
    else
      var n := |tables| - 1;
      Referenced(referencing, tables[..n]) + referencing[tables[n]]
  }

  /** The union holds exactly the values of the tables it ranges over. */
  lemma {:induction false} ReferencedMembership(referencing: map<string, seq<Option<Uuid>>>, tables: seq<string>, v: Option<Uuid>)
    requires forall t :: t in tables ==> t in referencing
    ensures v in Referenced(referencing, tables) <==> exists t :: t in tables && v in referencing[t]
    decreases |tables|
  {
    if tables != [] {
      var n := |tables| - 1;
      assert forall t :: t in tables[..n] ==> t in tables;
      ReferencedMembership(referencing, tables[..n], v);
      if v in referencing[tables[n]] {
        assert tables[n] in tables;
      }
      if exists t :: t in tables && v in referencing[t] {
        var t :| t in tables && v in referencing[t];
        if t != tables[n] {
          var j :| 0 <= j < |tables| && tables[j] == t;
          assert tables[..n][j] == t;
        }
      }
    }
  }

  /** `UPDATE config_scrapers SET deleted_at = now WHERE id = ?` (db/config_scraper.go:30-35). */
  function MarkDeleted(rows: map<Uuid, ScraperRow>, id: Uuid, now: Time): (r: map<Uuid, ScraperRow>)
    ensures r.Keys == rows.Keys
    ensures forall k :: k in rows && k != id ==> r[k] == rows[k]
    ensures id in rows ==> r[id] == rows[id].(deletedAt := Some(now))
  {
    if id in rows then rows[id := rows[id].(deletedAt := Some(now))] else rows
  }

  /** `UPDATE config_items SET scraper_id = NULL WHERE id IN (refs) AND scraper_id = ?` (db/config_scraper.go:49-55). */
  function Detach(items: map<Uuid, ConfigItemRow>, refs: seq<Option<Uuid>>, id: Uuid): (r: map<Uuid, ConfigItemRow>)
    ensures r.Keys == items.Keys
    ensures forall k :: k in items ==>
              r[k] == if items[k].scraperId == Some(id) && Some(k) in refs then items[k].(scraperId := None) else items[k]
  {
    map k | k in items :: if items[k].scraperId == Some(id) && InList(k, refs) == True then items[k].(scraperId := None) else items[k]
  }

  /** `UPDATE config_items SET deleted_at = NOW() WHERE id NOT IN (refs) AND scraper_id = ?` (db/config_scraper.go:58-64). */
  function SoftDeleteUnreferenced(items: map<Uuid, ConfigItemRow>, refs: seq<Option<Uuid>>, id: Uuid, now: Time): (r: map<Uuid, ConfigItemRow>)
    ensures r.Keys == items.Keys
    ensures forall k :: k in items ==>
              r[k] == if items[k].scraperId == Some(id) && Some(k) !in refs && None !in refs
                      then items[k].(deletedAt := Some(now)) else items[k]
  {
    map k | k in items :: if items[k].scraperId == Some(id) && Not(InList(k, refs)) == True then items[k].(deletedAt := Some(now)) else items[k]
  }

  /** Both config-item statements of a delete, in order. */
  function DeleteCascade(items: map<Uuid, ConfigItemRow>, refs: seq<Option<Uuid>>, id: Uuid, now: Time): map<Uuid, ConfigItemRow>
  {
    SoftDeleteUnreferenced(Detach(items, refs, id), refs, id, now)
  }

  /**
   * What the delete cascade does to one config item: items of other
   * scrapers (or of none) are untouched; an item of this scraper is
   * detached when it is referenced and stamped deleted when the NOT IN is
   * true. Detached items no longer match the second statement.
   */
  lemma DeleteCascadeOutcome(items: map<Uuid, ConfigItemRow>, refs: seq<Option<Uuid>>, id: Uuid, now: Time, k: Uuid)
    requires k in items
    ensures k in DeleteCascade(items, refs, id, now)
    ensures items[k].scraperId != Some(id) ==> DeleteCascade(items, refs, id, now)[k] == items[k]
    ensures items[k].scraperId == Some(id) && Some(k) in refs ==>
              DeleteCascade(items, refs, id, now)[k] == items[k].(scraperId := None)
    ensures items[k].scraperId == Some(id) && Some(k) !in refs && None !in refs ==>
              DeleteCascade(items, refs, id, now)[k] == items[k].(deletedAt := Some(now))
    ensures items[k].scraperId == Some(id) && Some(k) !in refs && None in refs ==>
              DeleteCascade(items, refs, id, now)[k] == items[k]
  {
    var d := Detach(items, refs, id);
    assert k in d;
  }

  /** No row is ever removed: the delete is soft, on the scraper and on its items. */
  lemma DeleteKeepsRows(scrapers: map<Uuid, ScraperRow>, items: map<Uuid, ConfigItemRow>, refs: seq<Option<Uuid>>,
                        id: Uuid, appNow: Time, dbNow: Time)
    ensures MarkDeleted(scrapers, id, appNow).Keys == scrapers.Keys
    ensures DeleteCascade(items, refs, id, dbNow).Keys == items.Keys
  {
  }

  /**
   * When the references hold no NULL, every item the scraper owned ends
   * either detached (owner cleared, stamp kept) or stamped deleted (owner
   * kept), never both and never neither.
   */
  lemma OwnedItemsDetachedOrDeleted(items: map<Uuid, ConfigItemRow>, refs: seq<Option<Uuid>>, id: Uuid, now: Time, k: Uuid)
    requires k in items && items[k].scraperId == Some(id)
    requires None !in refs
    ensures var after := DeleteCascade(items, refs, id, now)[k];
            (after.scraperId.None? && after.deletedAt == items[k].deletedAt)
            != (after.scraperId == Some(id) && after.deletedAt == Some(now))
  {
    DeleteCascadeOutcome(items, refs, id, now, k);
  }

  /**
   * A single NULL among the referencing `config_id`s makes every NOT IN
   * unknown: the soft-delete statement then matches no row, and the
   * scraper's unreferenced items stay live and owned.
   */
  lemma NullReferenceBlocksSoftDelete(items: map<Uuid, ConfigItemRow>, refs: seq<Option<Uuid>>, id: Uuid, now: Time)
    requires None in refs
    ensures forall k :: k in items ==> DeleteCascade(items, refs, id, now)[k].deletedAt == items[k].deletedAt
  {
    forall k | k in items ensures DeleteCascade(items, refs, id, now)[k].deletedAt == items[k].deletedAt {
      DeleteCascadeOutcome(items, refs, id, now, k);
    }
  }

  /** The row `PersistScrapeConfigFromCRD` saves (db/config_scraper.go:69-74); columns it does not set take Go's zero values. */
  function CrdRow(uid: Uuid, namespace: string, name: string, spec: string): (r: ScraperRow)
    ensures r.id == uid && r.source == KubernetesCRD && r.spec == spec
    ensures r.name == namespace + "/" + name
    ensures r.agentId == NilUuid && r.deletedAt.None?
  {
    ScraperRow(uid, namespace + "/" + name, KubernetesCRD, spec, NilUuid, None)
  }

  /** gorm's Save by primary key: the row with that key is replaced (all columns), or inserted. */
  function Upsert(rows: map<Uuid, ScraperRow>, row: ScraperRow): (r: map<Uuid, ScraperRow>)
    ensures r.Keys == rows.Keys + {row.id}
    ensures row.id in r && r[row.id] == row
    ensures forall k :: k in rows && k != row.id ==> r[k] == rows[k]
  {
    rows[row.id := row]
  }

  /**
   * Re-persisting a CRD updates its row in place: the number of rows grows
   * only for a new UID, saving twice is saving once, and a soft-deleted
   * scraper comes back live.
   */
  lemma CrdUpsertInPlace(rows: map<Uuid, ScraperRow>, uid: Uuid, namespace: string, name: string, spec: string)
    ensures var after := Upsert(rows, CrdRow(uid, namespace, name, spec));
            |after| == (if uid in rows then |rows| else |rows| + 1)
            && Upsert(after, CrdRow(uid, namespace, name, spec)) == after
            && after[uid].deletedAt.None?
  {
    var after := Upsert(rows, CrdRow(uid, namespace, name, spec));
    if uid in rows {
      assert after.Keys == rows.Keys;
    } else {
      assert after.Keys == rows.Keys + {uid};
    }
  }

  /** The keys of the rows whose spec is `spec`. */
  function RowsWithSpec(rows: map<Uuid, ScraperRow>, spec: string): (ks: set<Uuid>)
    ensures forall k :: k in ks <==> k in rows && rows[k].spec == spec
  {
    set k | k in rows && rows[k].spec == spec
  }

  /**
   * The row `PersistScrapeConfigFromFile` inserts: the model of the spec, with
   * the generated name, the config-file source and the key the insert assigns.
   */
  function FileRow(draft: ScraperRow, generatedName: string, newId: Uuid): (r: ScraperRow)
    ensures r.id == newId && r.spec == draft.spec && r.agentId == draft.agentId && r.deletedAt == draft.deletedAt
    ensures r.name == generatedName && r.source == ConfigFile
  {
    draft.(id := newId, name := generatedName, source := ConfigFile)
  }

  /**
   * Inserting a file-sourced row when no row has its spec leaves exactly one
   * row with that spec and every other row as it was, so a second persist
   * of the same spec finds it and inserts nothing.
   */
  lemma FileInsertMakesOneRow(rows: map<Uuid, ScraperRow>, row: ScraperRow)
    requires RowsWithSpec(rows, row.spec) == {} && row.id !in rows
    ensures RowsWithSpec(rows[row.id := row], row.spec) == {row.id}
    ensures forall k :: k in rows ==> rows[row.id := row][k] == rows[k]
  {
  }

  /** Which statement of `DeleteScrapeConfig`, if any, returns an error, and the error. */
  datatype DeleteFault = NoFault | MarkFails(cause: string) | DetachFails(cause: string) | SoftDeleteFails(cause: string)

  class Store {
    var scrapers: map<Uuid, ScraperRow>
    var configItems: map<Uuid, ConfigItemRow>
    /** For each referencing table, its `config_id` column. */
    var referencing: map<string, seq<Option<Uuid>>>

    /** Rows are keyed by their id, and every table of `ForeignKeyTables` exists. */
    predicate Valid()
      reads this
    {
      (forall k :: k in scrapers ==> scrapers[k].id == k)
      && (forall k :: k in configItems ==> configItems[k].id == k)
      && (forall t :: t in ForeignKeyTables ==> t in referencing)
    }

    constructor(scrapers: map<Uuid, ScraperRow>, configItems: map<Uuid, ConfigItemRow>, referencing: map<string, seq<Option<Uuid>>>)
      requires forall k :: k in scrapers ==> scrapers[k].id == k
      requires forall k :: k in configItems ==> configItems[k].id == k
      requires forall t :: t in ForeignKeyTables ==> t in referencing
      ensures Valid()
      ensures this.scrapers == scrapers && this.configItems == configItems && this.referencing == referencing
    {
      this.scrapers := scrapers;
      this.configItems := configItems;
      this.referencing := referencing;
    }

    /**
     * FindScraper: a query error is returned as is; a missing row is not an
     * error but "no scraper"; otherwise the row with that id.
     */
    function FindScraper(id: Uuid, queryError: Option<string>): (r: Result<Option<ScraperRow>, string>)
      reads this
      ensures queryError.Some? <==> r.Failure?
      ensures queryError.Some? ==> r == Failure(queryError.value)
      ensures r.Success? ==> (r.value.None? <==> id !in scrapers)
      ensures r.Success? && r.value.Some? ==> id in scrapers && r.value.value == scrapers[id]
    {
      if queryError.Some? then Failure(queryError.value)
      else if id in scrapers then Success(Some(scrapers[id]))
      else Success(None)
    }

    /** GetScrapeConfigsOfAgent: exactly the rows whose agent is `agent`, soft-deleted ones included. */
    function ScrapeConfigsOfAgent(agent: Uuid, queryError: Option<string>): (r: Result<set<ScraperRow>, string>)
      reads this
      ensures queryError.Some? <==> r.Failure?
      ensures queryError.Some? ==> r == Failure(queryError.value)
      ensures r.Success? ==> forall row :: row in r.value <==> row in scrapers.Values && row.agentId == agent
    {
      if queryError.Some? then Failure(queryError.value)
      else Success(set row | row in scrapers.Values && row.agentId == agent)
    }

    /** The `config_id`s of every table in `ForeignKeyTables`, gathered table by table (db/config_scraper.go:42-46). */
    method ReferencedConfigIds() returns (refs: seq<Option<Uuid>>)
      requires Valid()
      ensures refs == Referenced(referencing, ForeignKeyTables)
    {
      refs := [];
      for i := 0 to |ForeignKeyTables|
        invariant refs == Referenced(referencing, ForeignKeyTables[..i])
      {
        assert ForeignKeyTables[..i + 1][..i] == ForeignKeyTables[..i];
        refs := refs + referencing[ForeignKeyTables[i]];
      }
      assert ForeignKeyTables[..|ForeignKeyTables|] == ForeignKeyTables;
    }

    /**
     * DeleteScrapeConfig: stamp the scraper deleted, then detach its
     * referenced items, then stamp its other items deleted. The statements
     * are not in a transaction: an error returns at once and the statements
     * before it stay applied.
     */
    method DeleteScrapeConfig(id: Uuid, appNow: Time, dbNow: Time, fault: DeleteFault) returns (err: Option<string>)
      requires Valid()
      modifies this
      ensures Valid() && referencing == old(referencing)
      ensures err.None? <==> fault.NoFault?
      ensures !fault.NoFault? ==> err == Some(fault.cause)
      ensures scrapers == if fault.MarkFails? then old(scrapers) else MarkDeleted(old(scrapers), id, appNow)
      ensures var refs := Referenced(referencing, ForeignKeyTables);
              configItems == match fault
                case NoFault => DeleteCascade(old(configItems), refs, id, dbNow)
                case SoftDeleteFails(_) => Detach(old(configItems), refs, id)
                case _ => old(configItems)
    {
      if fault.MarkFails? {
        return Some(fault.cause);
      }
      scrapers := MarkDeleted(scrapers, id, appNow);
      var refs := ReferencedConfigIds();
      if fault.DetachFails? {
        return Some(fault.cause);
      }
      configItems := Detach(configItems, refs, id);
      if fault.SoftDeleteFails? {
        return Some(fault.cause);
      }
      configItems := SoftDeleteUnreferenced(configItems, refs, id, dbNow);
      err := None;
    }

    /**
     * PersistScrapeConfigFromCRD: save the row keyed by the resource's UID,
     * named "<namespace>/<name>", sourced from a CRD. `spec` is what
     * `StructToJSON` gave (its error is ignored). Returns whether a row was
     * affected, and the save's error.
     */
    method PersistScrapeConfigFromCRD(uid: Uuid, namespace: string, name: string, spec: string, saveError: Option<string>)
      returns (affected: bool, err: Option<string>)
      requires Valid()
      modifies this
      ensures Valid() && configItems == old(configItems) && referencing == old(referencing)
      ensures err == saveError && (affected <==> saveError.None?)
      ensures scrapers == if saveError.Some? then old(scrapers) else Upsert(old(scrapers), CrdRow(uid, namespace, name, spec))
    {
      if saveError.Some? {
        return false, saveError;
      }
      scrapers := Upsert(scrapers, CrdRow(uid, namespace, name, spec));
      return true, None;
    }

    /**
     * PersistScrapeConfigFromFile: `draft` is what `ToModel` gave. When a
     * row with the same spec exists, that row is returned and nothing is
     * written; otherwise the draft is named by `GenerateName` and inserted
     * under `newId`, the fresh primary key the database assigns. Each step's
     * error is returned at once and nothing is written.
     */
    method PersistScrapeConfigFromFile(draft: Result<ScraperRow, string>, findError: Option<string>,
                                       generatedName: Result<string, string>, newId: Uuid, createError: Option<string>)
      returns (r: Result<ScraperRow, string>)
      requires Valid()
      requires newId !in scrapers
      modifies this
      ensures Valid() && configItems == old(configItems) && referencing == old(referencing)
      ensures draft.Failure? ==> r == Failure(draft.error) && scrapers == old(scrapers)
      ensures draft.Success? && findError.Some? ==> r == Failure(findError.value) && scrapers == old(scrapers)
      ensures draft.Success? && findError.None? && RowsWithSpec(old(scrapers), draft.value.spec) != {} ==>
                scrapers == old(scrapers) && r.Success? && r.value in scrapers.Values && r.value.spec == draft.value.spec
      ensures draft.Success? && findError.None? && RowsWithSpec(old(scrapers), draft.value.spec) == {} ==>
                if generatedName.Failure? then r == Failure(generatedName.error) && scrapers == old(scrapers)
                else if createError.Some? then r == Failure(createError.value) && scrapers == old(scrapers)
                else
                  var row := FileRow(draft.value, generatedName.value, newId);
                  r == Success(row) && scrapers == old(scrapers)[newId := row]
    {
      if draft.Failure? {
        return Failure(draft.error);
      }
      if findError.Some? {
        return Failure(findError.value);
      }
      var matching := RowsWithSpec(scrapers, draft.value.spec);
      if matching != {} {
        var k :| k in matching;
        return Success(scrapers[k]);
      }
      if generatedName.Failure? {
        return Failure(generatedName.error);
      }
      if createError.Some? {
        return Failure(createError.value);
      }
      var row := FileRow(draft.value, generatedName.value, newId);
      scrapers := scrapers[newId := row];
      r := Success(row);
    }
  }
}
