/**
 * The saved reports (src/hooks/use-reports.ts): a list of reports keyed by their `id`,
 * with add, update, delete, look-up and import. Each operation computes the new list and
 * replaces the old one; writing it to the browser's storage is not modelled.
 */
module Reports {
  import opened Wrappers
  import opened Types

  // ---------------------------------------------------------------------------
  // The list operations on values
  // ---------------------------------------------------------------------------

  /** Some report in `rs` has identifier `id`. */
  predicate HasId(rs: seq<Report>, id: string)
  {
    exists i :: 0 <= i < |rs| && rs[i].id == id
  }

  /** The first report with identifier `id`, if any. */
  function Find(rs: seq<Report>, id: string): Option<Report>
  {
    if |rs| == 0 then None
    else if rs[0].id == id then Some(rs[0])
    else Find(rs[1..], id)
  }

  /** `Find` gives the first match, and nothing exactly when there is none. */
  lemma {:induction false} FindFirst(rs: seq<Report>, id: string)
    ensures Find(rs, id).None? <==> !HasId(rs, id)
    ensures Find(rs, id).Some? ==>
              exists i :: 0 <= i < |rs| && rs[i] == Find(rs, id).value && rs[i].id == id
                          && forall j :: 0 <= j < i ==> rs[j].id != id
  {
    if |rs| > 0 && rs[0].id != id {
      FindFirst(rs[1..], id);
      if Find(rs, id).Some? {
        var k :| 0 <= k < |rs[1..]| && rs[1..][k] == Find(rs, id).value && rs[1..][k].id == id
                 && forall j :: 0 <= j < k ==> rs[1..][j].id != id;
        assert rs[k + 1] == Find(rs, id).value && forall j :: 0 <= j < k + 1 ==> rs[j].id != id;
      }
      if HasId(rs, id) {
        var k :| 0 <= k < |rs| && rs[k].id == id;
        assert rs[1..][k - 1].id == id;
      }
    }
  }

  /** Every report with identifier `id` replaced by `r`; the others kept in place. */
  function Replaced(rs: seq<Report>, id: string, r: Report): (out: seq<Report>)
    ensures |out| == |rs|
    ensures forall i :: 0 <= i < |rs| ==> out[i] == if rs[i].id == id then r else rs[i]
  {
    if |rs| == 0 then []
    else [if rs[0].id == id then r else rs[0]] + Replaced(rs[1..], id, r)
  }

  /** The reports whose identifier is not `id`, in their original order. */
  function Without(rs: seq<Report>, id: string): seq<Report>
  {
    if |rs| == 0 then []
    else if rs[0].id == id then Without(rs[1..], id)
    else [rs[0]] + Without(rs[1..], id)
  }

  /** `Without` keeps exactly the reports with another identifier and never grows the list. */
  lemma {:induction false} WithoutKeeps(rs: seq<Report>, id: string)
    ensures forall x :: x in Without(rs, id) <==> x in rs && x.id != id
    ensures |Without(rs, id)| <= |rs|
    ensures |Without(rs, id)| == |rs| <==> !HasId(rs, id)
  {
    if |rs| > 0 {
      WithoutKeeps(rs[1..], id);
      assert rs == [rs[0]] + rs[1..];
      if HasId(rs[1..], id) {
        var k :| 0 <= k < |rs[1..]| && rs[1..][k].id == id;
        assert rs[k + 1].id == id;
      }
      if HasId(rs, id) && rs[0].id != id {
        var k :| 0 <= k < |rs| && rs[k].id == id;
        assert rs[1..][k - 1].id == id;
      }
    }
  }

  /** Removing from a concatenation removes from each part: the order of what is kept is unchanged. */
  lemma {:induction false} WithoutConcat(a: seq<Report>, b: seq<Report>, id: string)
    ensures Without(a + b, id) == Without(a, id) + Without(b, id)
  {
    if |a| > 0 {
      WithoutConcat(a[1..], b, id);
      assert (a + b)[1..] == a[1..] + b;
    } else {
      assert a + b == b;
    }
  }

  /** The import: replace the report with the same identifier, or put the new one first. */
  function Upserted(rs: seq<Report>, r: Report): seq<Report>
  {
    if HasId(rs, r.id) then Replaced(rs, r.id, r) else [r] + rs
  }

  // ---------------------------------------------------------------------------
  // The saved reports
  // ---------------------------------------------------------------------------

  /** The reports the page shows, and whether they are still being read from storage. */
  class ReportList {
    var reports: seq<Report>
    var isLoading: bool

    /** Before the stored reports are read: empty and loading. */
    constructor ()
      ensures reports == [] && isLoading
    {
      reports := [];
      isLoading := true;
    }

    /**
     * Reads the stored reports: a parsed list replaces the current one; nothing stored or
     * an unreadable text keeps it. Loading ends in every case.
     */
    method Load(stored: Stored<seq<Report>>)
      modifies this
      ensures reports == if stored.Stored? then stored.value else old(reports)
      ensures !isLoading
    {
      match stored {
        case Stored(rs) => reports := rs;
        case NothingStored =>
        case Unreadable =>
      }
      isLoading := false;
    }

    /**
     * Saves a new report under a fresh identifier and the current time, both chosen by the
     * caller, ahead of all the others.
     */
    method AddReport(data: ReportData, id: string, createdAt: string) returns (report: Report)
      modifies this
      ensures report == Report(id, createdAt, data)
      ensures reports == [report] + old(reports)
      ensures isLoading == old(isLoading)
    {
      report := Report(id, createdAt, data);
      reports := [report] + reports;
    }

    /** Replaces every report with the updated one's identifier by it. */
    method UpdateReport(updated: Report) returns (result: Report)
      modifies this
      ensures result == updated
      ensures reports == Replaced(old(reports), updated.id, updated)
      ensures isLoading == old(isLoading)
    {
      reports := Replaced(reports, updated.id, updated);
      result := updated;
    }

    /** Removes every report with identifier `id`. */
    method DeleteReport(id: string)
      modifies this
      ensures reports == Without(old(reports), id)
      ensures isLoading == old(isLoading)
    {
      reports := Without(reports, id);
    }

    /** The first report with identifier `id`, or nothing when there is none. */
    function GetReportById(id: string): (r: Option<Report>)
      reads this
      ensures r.None? <==> !HasId(reports, id)
      ensures r.Some? ==>
                exists i :: 0 <= i < |reports| && reports[i] == r.value && r.value.id == id
                            && forall j :: 0 <= j < i ==> reports[j].id != id
    {
      FindFirst(reports, id);
      Find(reports, id)
    }

    /**
     * Imports a report read from a file. One without an identifier or either party's name
     * (an absent field arrives as the empty text) is refused and nothing changes; otherwise
     * it replaces the report with its identifier, or goes first when there is none.
     */
    method ImportReport(payload: Report) returns (imported: bool)
      modifies this
      ensures imported <==> payload.id != "" && payload.data.partyA != "" && payload.data.partyB != ""
      ensures reports == if imported then Upserted(old(reports), payload) else old(reports)
      ensures isLoading == old(isLoading)
    {
      if payload.id != "" && payload.data.partyA != "" && payload.data.partyB != "" {
        if HasId(reports, payload.id) {
          reports := Replaced(reports, payload.id, payload);
        } else {
          reports := [payload] + reports;
        }
        imported := true;
      } else {
        imported := false;
      }
    }
  }

  // ---------------------------------------------------------------------------
  // What the operations promise together
  // ---------------------------------------------------------------------------

  /** After adding, the new report is found by its identifier, and every other look-up is as before. */
  lemma FindAfterAdd(rs: seq<Report>, r: Report, other: string)
    ensures Find([r] + rs, r.id) == Some(r)
    ensures other != r.id ==> Find([r] + rs, other) == Find(rs, other)
  {
    assert ([r] + rs)[1..] == rs;
  }

  /** Updating an identifier that is not there changes nothing. */
  lemma {:induction false} ReplacedAbsent(rs: seq<Report>, id: string, r: Report)
    requires !HasId(rs, id)
    ensures Replaced(rs, id, r) == rs
  {
    forall k | 0 <= k < |rs|
      ensures Replaced(rs, id, r)[k] == rs[k]
    {
      assert rs[k].id != id;
    }
  }

  /**
   * After an update of a report that is there, it is found as updated; an update of an
   * identifier that is not there changes nothing; other look-ups are as before.
   */
  lemma {:induction false} FindAfterUpdate(rs: seq<Report>, r: Report, other: string)
    ensures HasId(rs, r.id) ==> Find(Replaced(rs, r.id, r), r.id) == Some(r)
    ensures !HasId(rs, r.id) ==> Replaced(rs, r.id, r) == rs
    ensures other != r.id ==> Find(Replaced(rs, r.id, r), other) == Find(rs, other)
  {
    if !HasId(rs, r.id) {
      ReplacedAbsent(rs, r.id, r);
    } else if |rs| > 0 {
      FindAfterUpdate(rs[1..], r, other);
      assert Replaced(rs, r.id, r)[1..] == Replaced(rs[1..], r.id, r);
      if rs[0].id != r.id {
        var k :| 0 <= k < |rs| && rs[k].id == r.id;
        assert rs[1..][k - 1].id == r.id;
      }
    }
  }

  /** After a delete, the identifier is gone, and every other look-up is as before. */
  lemma {:induction false} FindAfterDelete(rs: seq<Report>, id: string, other: string)
    ensures Find(Without(rs, id), id).None?
    ensures other != id ==> Find(Without(rs, id), other) == Find(rs, other)
  {
    if |rs| > 0 {
      FindAfterDelete(rs[1..], id, other);
      if rs[0].id != id {
        assert ([rs[0]] + Without(rs[1..], id))[1..] == Without(rs[1..], id);
      }
    }
  }

  /** Deleting twice is deleting once; deleting what was never there changes nothing. */
  lemma {:induction false} DeleteIdempotent(rs: seq<Report>, id: string)
    ensures Without(Without(rs, id), id) == Without(rs, id)
    ensures !HasId(rs, id) ==> Without(rs, id) == rs
  {
    if |rs| > 0 {
      DeleteIdempotent(rs[1..], id);
      if rs[0].id != id {
        assert ([rs[0]] + Without(rs[1..], id))[1..] == Without(rs[1..], id);
      }
      if !HasId(rs, id) {
        forall k | 0 <= k < |rs[1..]|
          ensures rs[1..][k].id != id
        {
          assert rs[1..][k] == rs[k + 1];
        }
        assert rs[0].id != id;
        assert rs == [rs[0]] + rs[1..];
      }
    }
  }

  /**
   * An import keeps the length when the identifier is there and adds one report when it is
   * not; either way the imported report is found afterwards and other look-ups are as before.
   */
  lemma ImportOutcome(rs: seq<Report>, r: Report, other: string)
    ensures HasId(rs, r.id) ==> |Upserted(rs, r)| == |rs|
    ensures !HasId(rs, r.id) ==> Upserted(rs, r) == [r] + rs
    ensures Find(Upserted(rs, r), r.id) == Some(r)
    ensures other != r.id ==> Find(Upserted(rs, r), other) == Find(rs, other)
  {
    FindAfterUpdate(rs, r, other);
    FindAfterAdd(rs, r, other);
  }

  /** Importing the same report twice is importing it once. */
  lemma ImportIdempotent(rs: seq<Report>, r: Report)
    ensures Upserted(Upserted(rs, r), r) == Upserted(rs, r)
  {
    var once := Upserted(rs, r);
    assert HasId(once, r.id) by {
      if HasId(rs, r.id) {
        var k :| 0 <= k < |rs| && rs[k].id == r.id;
        assert once[k].id == r.id;
      } else {
        assert once[0].id == r.id;
      }
    }
    assert Replaced(once, r.id, r) == once;
  }

  /** Deleting a report just added leaves the list as deleting from the old one would. */
  lemma DeleteAfterAdd(rs: seq<Report>, r: Report)
    ensures Without([r] + rs, r.id) == Without(rs, r.id)
  {
    assert ([r] + rs)[1..] == rs;
  }
}
