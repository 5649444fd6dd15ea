/**
 * The note handler. It has no table of its own to consult: it finds the
 * note through the project listing cached under `projects:all` and edits
 * that note object in place. Because the cache holds references, the edit
 * is seen by everything else that holds the same note (the project table,
 * cached projects, cached note pages).
 */
module NoteControllers {
  import opened Types
  import opened NodeStore
  import opened CacheUtil
  import opened Text
  import opened ProjectControllers

  /** `notes.findIndex((n) => n.id === id)`: the first position of the id, or -1. */
  function FindIndex(notes: seq<Note>, id: string): (i: int)
    ensures -1 <= i < |notes|
    ensures i == -1 <==> forall j :: 0 <= j < |notes| ==> notes[j].id != id
    ensures 0 <= i ==> notes[i].id == id && forall j :: 0 <= j < i ==> notes[j].id != id
  {
    if notes == [] then -1
    else if notes[0].id == id then 0
    else
      var k := FindIndex(notes[1..], id);
      if k == -1 then -1 else k + 1
  }

  /** The position of the first project in the list that holds a note with the id, or -1. */
  function FirstHolder(ps: seq<Project>, id: string): (k: int)
    reads ps
    ensures -1 <= k < |ps|
    ensures k == -1 <==> forall i :: 0 <= i < |ps| ==> FindIndex(ps[i].notes, id) == -1
    ensures 0 <= k ==> FindIndex(ps[k].notes, id) != -1
    ensures 0 <= k ==> forall i :: 0 <= i < k ==> FindIndex(ps[i].notes, id) == -1
  {
    if ps == [] then -1
    else if FindIndex(ps[0].notes, id) != -1 then 0
    else
      var k := FirstHolder(ps[1..], id);
      if k == -1 then -1 else k + 1
  }

  /** The listing stored under `projects:all`, live or not; empty when there is none. */
  function CachedProjects(m: Store<Json>): seq<Project> {
    if ListCacheKey in m && m[ListCacheKey].value.ProjectList? then m[ListCacheKey].value.projects else []
  }

  /** The listing a read of `projects:all` at `now` yields; empty on a miss. */
  function LiveProjects(m: Store<Json>, now: int): (ps: seq<Project>)
    ensures Lookup(m, ListCacheKey, now).Some? ==> ps == CachedProjects(m)
    ensures Lookup(m, ListCacheKey, now).None? ==> ps == []
  {
    if Lookup(m, ListCacheKey, now).Some? then CachedProjects(m) else []
  }

  /** Every note held by a project of the list. */
  ghost function NotesOf(ps: seq<Project>): set<Note>
    reads ps
  {
    set i, j | 0 <= i < |ps| && 0 <= j < |ps[i].notes| :: ps[i].notes[j]
  }

  lemma NoteIsHeld(ps: seq<Project>, i: int, j: int)
    requires 0 <= i < |ps| && 0 <= j < |ps[i].notes|
    ensures ps[i].notes[j] in NotesOf(ps)
  {
  }

  /**
   * The search loop of the update: the first project of the list whose
   * notes contain the id, and the first position of the id in it.
   */
  method FindNote(ps: seq<Project>, noteId: string) returns (foundProject: Project?, noteIndex: int)
    ensures FirstHolder(ps, noteId) == -1 ==> foundProject == null && noteIndex == -1
    ensures 0 <= FirstHolder(ps, noteId) ==>
      && foundProject == ps[FirstHolder(ps, noteId)]
      && noteIndex == FindIndex(foundProject.notes, noteId)
      && 0 <= noteIndex < |foundProject.notes|
  {
    foundProject, noteIndex := null, -1;
    var i := 0;
    while i < |ps|
      invariant 0 <= i <= |ps|
      invariant foundProject == null && noteIndex == -1
      invariant forall j :: 0 <= j < i ==> FindIndex(ps[j].notes, noteId) == -1
    {
      noteIndex := FindIndex(ps[i].notes, noteId);
      if noteIndex != -1 {
        foundProject := ps[i];
        assert FirstHolder(ps, noteId) == i;
        return;
      }
      i := i + 1;
    }
  }

  /** The note the update edits: the id's first position in its first holder. */
  function Target(ps: seq<Project>, noteId: string): (n: Note)
    reads ps
    requires 0 <= FirstHolder(ps, noteId)
    ensures n.id == noteId
  {
    var p := ps[FirstHolder(ps, noteId)];
    p.notes[FindIndex(p.notes, noteId)]
  }

  /**
   * The search and the in-place edit of the update, over the listing read
   * from the cache: the first matching note gets the new text and no other
   * note reachable from the listing changes.
   */
  method EditNote(ps: seq<Project>, noteId: string, newText: string) returns (found: bool)
    modifies NotesOf(ps)
    ensures found <==> 0 <= FirstHolder(ps, noteId)
    ensures found ==> Target(ps, noteId).text == newText
    ensures forall n :: n in old(NotesOf(ps)) && (!found || n != Target(ps, noteId)) ==> n.text == old(n.text)
  {
    var foundProject, noteIndex := FindNote(ps, noteId);
    if foundProject == null {
      return false;
    }
    var note := foundProject.notes[noteIndex];
    NoteIsHeld(ps, FirstHolder(ps, noteId), noteIndex);
    note.text := newText;
    found := true;
  }

  class NoteController {
    /** Declared by the handler's class but never read or written. */
    var projects: map<string, Project>
    const cache: Cache<Json>

    constructor (cache: Cache<Json>)
      ensures this.cache == cache && projects == map[]
    {
      this.cache := cache;
      projects := map[];
    }

    /** Reads `projects:all`; a miss gives the empty list. */
    method ReadListing(now: int) returns (list: seq<Project>)
      requires cache.Valid() && WellTyped(cache.store)
      modifies cache
      ensures cache.Valid() && WellTyped(cache.store)
      ensures cache.store == Prune(old(cache.store), ListCacheKey, now)
      ensures list == LiveProjects(old(cache.store), now)
    {
      KeyFamiliesDisjoint("", "", 0);
      var cachedResult := cache.Get(ListCacheKey, NoOptions, now);
      ShrinkKeepsTyped(cache.store, old(cache.store));
      list := [];
      if cachedResult.Some? {
        list := cachedResult.value.projects;
      }
    }

    /**
     * PATCH /notes/:id: with a non-blank text, finds the note through the
     * cached project listing and sets its text to the trimmed text. A blank
     * text is 400; a missing listing or a note in none of its projects is
     * 404. Nothing is written to the cache; the only cache change is the
     * lazy drop of an expired listing.
     */
    method Update(noteId: string, text: Option<string>, now: int) returns (res: Response)
      requires cache.Valid() && WellTyped(cache.store)
      modifies cache, NotesOf(CachedProjects(cache.store))
      ensures cache.Valid() && WellTyped(cache.store)
      ensures projects == old(projects)
      // 400: blank text; nothing read or written.
      ensures MissingText(text) ==> res.status == 400 && cache.store == old(cache.store)
      // Otherwise the listing is read (an expired one is dropped) and searched.
      ensures !MissingText(text) ==> cache.store == Prune(old(cache.store), ListCacheKey, now)
      ensures !MissingText(text) ==>
        res.status == (if FirstHolder(LiveProjects(old(cache.store), now), noteId) == -1 then 404 else 200)
      // On success the first matching note carries the trimmed text.
      ensures !MissingText(text) && 0 <= FirstHolder(LiveProjects(old(cache.store), now), noteId) ==>
        Target(LiveProjects(old(cache.store), now), noteId).text == Trim(text.value)
      // No other note changes: a changed text is the target of a successful update.
      ensures forall n :: n in old(NotesOf(CachedProjects(cache.store))) && n.text != old(n.text) ==>
        && !MissingText(text)
        && 0 <= FirstHolder(LiveProjects(old(cache.store), now), noteId)
        && n == Target(LiveProjects(old(cache.store), now), noteId)
    {
      if MissingText(text) {
        return Response(400, Message("Text is required"));
      }
      var list := ReadListing(now);
      var found := EditNote(list, noteId, Trim(text.value));
      if !found {
        return Response(404, Message("Note not found"));
      }
      res := Response(200, Message("Note has been updated."));
    }
  }
}
