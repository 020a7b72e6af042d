/** The lists of src/components/modals/UpdatesModal.tsx. */
module Updates {
  import opened Wrappers
  import Seqs
  import Text

  datatype UpdateType = Feature | Improvement | Bugfix | Announcement | Event
  datatype UpdateStatus = New | Active | Completed
  datatype Priority = Low | Medium | High

  datatype Update = Update(
    id: string,
    kind: UpdateType,
    title: string,
    description: string,
    date: string,
    version: Option<string>,
    status: UpdateStatus,
    priority: Priority,
    tags: seq<string>)

  datatype TypeFilter = AllTypes | OnlyType(kind: UpdateType)

  predicate OfKind(u: Update, kind: UpdateType) { u.kind == kind }
  function KindStage(kind: UpdateType): Update -> bool { u => OfKind(u, kind) }

  /** `filteredUpdates`. */
  function FilteredUpdates(updates: seq<Update>, filter: TypeFilter): (r: seq<Update>)
    ensures filter == AllTypes ==> r == updates
    ensures filter.OnlyType? ==>
              && Seqs.IsSubsequence(r, updates)
              && (forall i :: 0 <= i < |r| ==> r[i].kind == filter.kind)
              && (forall i :: 0 <= i < |updates| && updates[i].kind == filter.kind ==> updates[i] in r)
  {
    if filter == AllTypes then updates
    else
      var r := Seqs.Filter(KindStage(filter.kind), updates);
      assert forall i :: 0 <= i < |r| ==> KindStage(filter.kind)(r[i]);
      assert forall i :: 0 <= i < |updates| && updates[i].kind == filter.kind ==> KindStage(filter.kind)(updates[i]);
      r
  }

  /** Applying the same filter again changes nothing. */
  lemma FilterIdempotent(updates: seq<Update>, filter: TypeFilter)
    ensures FilteredUpdates(FilteredUpdates(updates, filter), filter) == FilteredUpdates(updates, filter)
  {
    if filter.OnlyType? {
      var r := FilteredUpdates(updates, filter);
      Seqs.FilterAll(KindStage(filter.kind), r);
    }
  }

  /** `update.version` is truthy. */
  predicate Versioned(u: Update) { u.version.Some? && u.version.value != "" }

  /** The changelog: `updates.filter(update => update.version)`. */
  function Changelog(updates: seq<Update>): (r: seq<Update>)
    ensures Seqs.IsSubsequence(r, updates)
    ensures forall i :: 0 <= i < |r| ==> Versioned(r[i])
    ensures forall i :: 0 <= i < |updates| && Versioned(updates[i]) ==> updates[i] in r
  {
    Seqs.Filter(Versioned, updates)
  }

  /** The roadmap badge: `status.replace('-', ' ')`, a string pattern, so only
      the first dash becomes a space. */
  function RoadmapLabel(status: string): (r: string)
    ensures |r| == |status|
    ensures '-' !in status ==> r == status
    ensures forall i :: 0 <= i < |status| && status[i] == '-' && '-' !in status[..i] ==> r[i] == ' '
    ensures forall i :: 0 <= i < |status| && r[i] != status[i] ==> status[i] == '-' && '-' !in status[..i]
  {
    Text.ReplaceFirst(status, '-', ' ')
  }

  /** On the roadmap's own statuses the label reads as intended. */
  lemma RoadmapLabelInProgress()
    ensures RoadmapLabel("in-progress") == "in progress"
  {
    InProgressSpelled();
    RoadmapLabelFirstDash("in", "progress");
  }

  lemma InProgressSpelled()
    ensures "in-progress" == "in" + ['-'] + "progress"
    ensures "in progress" == "in" + [' '] + "progress"
  {
  }

  /** Only the first dash becomes a space; later ones are kept. */
  lemma RoadmapLabelFirstDash(before: string, after: string)
    requires '-' !in before
    ensures RoadmapLabel(before + ['-'] + after) == before + [' '] + after
  {
    Text.ReplaceFirstAt(before, after, '-', ' ');
  }

  lemma RoadmapLabelNoDash(status: string)
    requires status == "planned" || status == "research"
    ensures RoadmapLabel(status) == status
  {
    NoDashSpelled();
  }

  lemma NoDashSpelled()
    ensures '-' !in "planned" && '-' !in "research"
  {
  }
}
