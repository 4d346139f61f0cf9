/** The abstract base record of core/models.py: every concrete record gets an
    identifier fixed when it is built and two timestamps that the persistence
    layer stamps when it is saved. */
module CoreModels {
  import opened Wrappers

  /** Record identifiers. The source draws them from `uuid.uuid4`; here they
      come from a supply of fresh values (a counter kept by the store). */
  type Uuid = nat

  /** A reading of the clock, injected by the caller of every save. */
  type Time = int

  /** The clock readings one `save()` takes. Django's `pre_save` calls the
      clock separately for each timestamp field, in field order: `forCreated`
      is read for `created_at` by the save that inserts the row (later saves
      do not read it), `forUpdated` for `updated_at` by every save. */
  datatype SaveClock = SaveClock(forCreated: Time, forUpdated: Time)

  /** The two timestamp columns of a record. */
  datatype Stamps = Stamps(createdAt: Option<Time>, updatedAt: Option<Time>)

  /** The timestamps of a record after the saves with the clock readings
      `saves`, oldest first. `auto_now_add` stamps `created_at` only on the
      save that inserts the row, the first one; `auto_now` stamps
      `updated_at` on every save. A record never saved has neither. */
  function StampsAfter(saves: seq<SaveClock>): (st: Stamps)
    ensures saves == [] ==> st == Stamps(None, None)
    ensures saves != [] ==> st.createdAt == Some(saves[0].forCreated)
    ensures saves != [] ==> st.updatedAt == Some(saves[|saves| - 1].forUpdated)
  {
    if saves == [] then Stamps(None, None)
    else
      var earlier := saves[..|saves| - 1];
      var now := saves[|saves| - 1];
      var before := StampsAfter(earlier);
      Stamps(if earlier == [] then Some(now.forCreated) else before.createdAt, Some(now.forUpdated))
  }

  /** A later save keeps `created_at` and moves `updated_at` to its own clock
      reading: of the three base fields, saving changes only `updated_at`. */
  lemma {:induction false} SaveChangesOnlyUpdatedAt(saves: seq<SaveClock>, now: SaveClock)
    requires saves != []
    ensures StampsAfter(saves + [now]).createdAt == StampsAfter(saves).createdAt
    ensures StampsAfter(saves + [now]).updatedAt == Some(now.forUpdated)
  {
    assert (saves + [now])[..|saves|] == saves;
  }

  /** A clock that never runs backwards across the readings of `saves`: the
      inserting save reads it for `created_at` before `updated_at`, and every
      save's `updated_at` reading is no earlier than the previous one's. */
  ghost predicate ClockForward(saves: seq<SaveClock>)
  {
    (saves != [] ==> saves[0].forCreated <= saves[0].forUpdated) &&
    forall i :: 0 < i < |saves| ==> saves[i - 1].forUpdated <= saves[i].forUpdated
  }

  /** Under a clock that never runs backwards, a saved record's `created_at`
      is never later than its `updated_at`; on the inserting save the two may
      differ by the time between the two readings. */
  lemma {:induction false} CreatedNotAfterUpdated(saves: seq<SaveClock>)
    requires saves != [] && ClockForward(saves)
    ensures StampsAfter(saves).createdAt.value <= StampsAfter(saves).updatedAt.value
  {
    if |saves| > 1 {
      var earlier := saves[..|saves| - 1];
      assert ClockForward(earlier) by {
        forall i | 0 < i < |earlier|
          ensures earlier[i - 1].forUpdated <= earlier[i].forUpdated
        {
          assert earlier[i - 1] == saves[i - 1] && earlier[i] == saves[i];
        }
      }
      CreatedNotAfterUpdated(earlier);
      assert saves[|saves| - 2].forUpdated <= saves[|saves| - 1].forUpdated;
    }
  }

  /** One record built on the base convention, as Django holds it in memory. */
  class BaseRecord {
    /** `editable=False`: the identifier is given when the record is built
        and no later operation can reassign it. */
    const id: Uuid
    var createdAt: Option<Time>
    var updatedAt: Option<Time>
    /** Django's `_state.adding`: true until the first save inserts the row. */
    var adding: bool
    /** The clock readings of the saves so far, oldest first. */
    ghost var saves: seq<SaveClock>

    ghost predicate Valid()
      reads this
    {
      adding == (saves == []) &&
      Stamps(createdAt, updatedAt) == StampsAfter(saves)
    }

    /** A record built with the identifier `id` drawn from the fresh-id supply. */
    constructor (id: Uuid)
      ensures Valid() && this.id == id && saves == []
      ensures adding && createdAt == None && updatedAt == None
    {
      this.id := id;
      createdAt, updatedAt := None, None;
      adding := true;
      saves := [];
    }

    /** `save()` with the clock readings `now`: the first save stamps both
        timestamps, every later one only `updated_at`. */
    method Save(now: SaveClock)
      requires Valid()
      modifies this
      ensures Valid() && saves == old(saves) + [now] && !adding
      ensures updatedAt == Some(now.forUpdated)
      ensures createdAt == if old(adding) then Some(now.forCreated) else old(createdAt)
    {
      if adding {
        createdAt := Some(now.forCreated);
        adding := false;
      }
      updatedAt := Some(now.forUpdated);
      assert (saves + [now])[..|saves|] == saves;
      saves := saves + [now];
    }
  }
}
