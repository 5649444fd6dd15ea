/**
 * The project handlers: the `projects` table (a JavaScript Map, so its
 * values come out in insertion order) and the shared cache are the state;
 * each handler is one atomic step taking the clock `now` and, where the
 * service generates them, the fresh id and creation instant as parameters.
 */
module ProjectControllers {
  import opened Types
  import opened NodeStore
  import opened CacheUtil
  import opened Text

  /** Prefix of the per-project cache entries. */
  const CachePrefix: string := "project"
  /** The cache key of the project listing. */
  const ListCacheKey: string := "projects:all"
  /** Time-to-live, in seconds, of everything the handlers cache. */
  const Ttl: int := 300
  const DefaultLimit: int := 10
  const MaxLimit: int := 50

  const ProjectReadOptions := CacheOptions(None, Some(CachePrefix))
  const ProjectWriteOptions := CacheOptions(Some(Ttl), Some(CachePrefix))
  const TtlOptions := CacheOptions(Some(Ttl), None)

  // ---------------------------------------------------------------------
  // Cache key families and the types of the values stored under them

  function ProjectKey(id: string): string {
    FullKey(id, Some(CachePrefix))
  }

  predicate IsProjectKey(k: string) {
    |k| >= 8 && k[..8] == "project:"
  }

  /** The part of a page key before the limit: `notes:<id>:limit:`. */
  function NotesKeyStem(projectId: string): string {
    "notes:" + projectId + ":limit:"
  }

  /** `notes:<id>:limit:<limit>`: the project's stem followed by the limit in decimal. */
  function NotesCacheKey(projectId: string, limit: int): (k: string)
    ensures |k| == |NotesKeyStem(projectId)| + |IntToDecimal(limit)|
    ensures k[..|NotesKeyStem(projectId)|] == NotesKeyStem(projectId)
    ensures k[|NotesKeyStem(projectId)|..] == IntToDecimal(limit)
  {
    NotesKeyStem(projectId) + IntToDecimal(limit)
  }

  /** For one project, distinct limits have distinct page keys: a page is never served for another limit. */
  lemma NotesCacheKeyInjective(projectId: string, a: int, b: int)
    ensures NotesCacheKey(projectId, a) == NotesCacheKey(projectId, b) <==> a == b
  {
    if NotesCacheKey(projectId, a) == NotesCacheKey(projectId, b) {
      IntToDecimalRoundTrip(a);
      assert IntToDecimal(a) == NotesCacheKey(projectId, a)[|NotesKeyStem(projectId)|..];
    }
  }

  /**
   * The casts the handlers make on cache reads are sound: the listing key
   * holds a project list, and every `project:` key holds a project.
   */
  predicate WellTyped(m: Store<Json>) {
    && (ListCacheKey in m ==> m[ListCacheKey].value.ProjectList?)
    && (forall k :: k in m && IsProjectKey(k) ==> m[k].value.ProjectObj?)
  }

  /** The three key families the handlers use never overlap. */
  lemma KeyFamiliesDisjoint(id: string, projectId: string, limit: int)
    ensures IsProjectKey(ProjectKey(id))
    ensures !IsProjectKey(ListCacheKey)
    ensures !IsProjectKey(NotesCacheKey(projectId, limit)) && NotesCacheKey(projectId, limit) != ListCacheKey
    ensures ProjectKey(id) != ListCacheKey
  {
    var pk := ProjectKey(id);
    assert pk[..8] == "project:" by {
      assert pk == "project" + ":" + id;
    }
    assert ListCacheKey[7] == 's';
    var nk := NotesCacheKey(projectId, limit);
    assert nk[0] == NotesKeyStem(projectId)[0] == 'n';
  }

  /** Everything in `a` is in `b` with the same entry. */
  predicate SubStore(a: Store<Json>, b: Store<Json>) {
    forall k :: k in a ==> k in b && a[k] == b[k]
  }

  lemma ShrinkKeepsTyped(a: Store<Json>, b: Store<Json>)
    requires WellTyped(b) && SubStore(a, b)
    ensures WellTyped(a)
  {
  }

  lemma WriteKeepsTyped(m: Store<Json>, k: string, e: Entry<Json>)
    requires WellTyped(m)
    requires k == ListCacheKey ==> e.value.ProjectList?
    requires IsProjectKey(k) ==> e.value.ProjectObj?
    ensures WellTyped(Write(m, k, e))
  {
  }

  // ---------------------------------------------------------------------
  // The notes listing: limit, order, page

  /** `parseInt(req.query.limit) || 10`, with `None` for a query that parses to NaN. */
  function PageLimit(parsed: Option<int>): (limit: int)
    ensures limit != 0
    ensures parsed.Some? && parsed.value != 0 ==> limit == parsed.value
    ensures parsed.None? || parsed.value == 0 ==> limit == DefaultLimit
  {
    if parsed.Some? && parsed.value != 0 then parsed.value else DefaultLimit
  }

  /** Newest first: `createdAt` never increases along the list. */
  predicate NewestFirst(s: seq<Note>) {
    forall i, j :: 0 <= i < j < |s| ==> s[i].createdAt >= s[j].createdAt
  }

  /** Places `n` before the first note that is not newer than it. */
  function InsertByDate(n: Note, s: seq<Note>): (r: seq<Note>)
    requires NewestFirst(s)
    ensures NewestFirst(r)
    ensures multiset(r) == multiset(s) + multiset{n}
    ensures |r| == |s| + 1
    ensures r[0] == n || (s != [] && r[0] == s[0])
  {
    if s == [] || s[0].createdAt <= n.createdAt then
      NewestFirstCons(n, s);
      [n] + s
    else
      var rest := InsertByDate(n, s[1..]);
      NewestFirstCons(s[0], rest);
      assert s == [s[0]] + s[1..];
      [s[0]] + rest
  }

  lemma NewestFirstCons(x: Note, t: seq<Note>)
    requires NewestFirst(t) && (t == [] || x.createdAt >= t[0].createdAt)
    ensures NewestFirst([x] + t)
  {
  }

  /**
   * `[...notes].sort((a, b) => b.createdAt - a.createdAt)`: a newest-first
   * permutation of the notes. Insertion keeps notes with equal instants in
   * their original order, as the stable JavaScript sort does.
   */
  function SortNewestFirst(s: seq<Note>): (r: seq<Note>)
    ensures NewestFirst(r)
    ensures multiset(r) == multiset(s)
    ensures |r| == |s|
  {
    if s == [] then []
    else
      assert s == [s[0]] + s[1..];
      InsertByDate(s[0], SortNewestFirst(s[1..]))
  }

  /**
   * The end index `Array.prototype.slice(0, limit)` uses on a list of `len`
   * items: a non-negative limit is capped at the length, a negative one
   * counts back from the end and stops at 0.
   */
  function SliceEnd(len: nat, limit: int): (e: nat)
    ensures e <= len
    ensures 0 <= limit <= len ==> e == limit
    ensures len < limit ==> e == len
    ensures limit < 0 ==> e == len + limit || (e == 0 && len + limit <= 0)
  {
    if limit < 0 then (if len + limit > 0 then len + limit else 0)
    else if limit < len then limit else len
  }

  /**
   * The notes listing of a project: the first `limit` notes of the
   * newest-first order (for a negative limit, all but the last `-limit`),
   * the total note count, and the limit echoed back.
   */
  function NotesPageOf(projectId: string, notes: seq<Note>, limit: int): (r: Json)
    ensures r.NotesPage? && r.projectId == projectId && r.total == |notes| && r.limit == limit
    ensures NewestFirst(r.notes)
    ensures |r.notes| <= |notes| && r.notes == SortNewestFirst(notes)[..|r.notes|]
    ensures multiset(r.notes) <= multiset(notes)
    ensures limit > 0 ==> |r.notes| == (if limit < |notes| then limit else |notes|)
    ensures limit < 0 ==> |r.notes| == (if |notes| + limit > 0 then |notes| + limit else 0)
  {
    var sorted := SortNewestFirst(notes);
    var page := sorted[..SliceEnd(|sorted|, limit)];
    assert sorted == page + sorted[|page|..];
    assert multiset(sorted) == multiset(page) + multiset(sorted[|page|..]);
    NotesPage(projectId, page, |sorted|, limit)
  }

  /** `!text || text.trim().length === 0`: no text, or only whitespace. */
  predicate MissingText(text: Option<string>)
    ensures MissingText(text) <==> text.None? || IsBlank(text.value)
  {
    text.None? || Trim(text.value) == ""
  }

  // ---------------------------------------------------------------------
  // The table

  /** The Map's key order: each key once, exactly the keys of the map. */
  ghost predicate InsertionOrder(order: seq<string>, m: map<string, Project>) {
    && (forall i, j :: 0 <= i < j < |order| ==> order[i] != order[j])
    && (forall k :: k in m <==> k in order)
  }

  /** `Array.from(map.values())` */
  function ValuesInOrder(order: seq<string>, m: map<string, Project>): (vs: seq<Project>)
    requires forall k :: k in order ==> k in m
    ensures |vs| == |order|
    ensures forall i :: 0 <= i < |order| ==> vs[i] == m[order[i]]
  {
    if order == [] then [] else [m[order[0]]] + ValuesInOrder(order[1..], m)
  }

  /** `Map.prototype.set` on the key order: a new key goes last, an existing key keeps its place. */
  function OrderAfterSet(order: seq<string>, m: map<string, Project>, id: string): (o: seq<string>)
    ensures id in m ==> o == order
    ensures id !in m ==> o == order + [id]
  {
    if id in m then order else order + [id]
  }

  lemma SetKeepsOrder(order: seq<string>, m: map<string, Project>, id: string, p: Project)
    requires InsertionOrder(order, m)
    ensures InsertionOrder(OrderAfterSet(order, m, id), m[id := p])
  {
    if id !in m {
      var o := order + [id];
      forall i, j | 0 <= i < j < |o| ensures o[i] != o[j] {
        if j == |order| {
          assert o[i] in order;
        }
      }
    }
  }

  /** A key added at the end of the order lists its project last. */
  lemma ListingAfterSet(order: seq<string>, m: map<string, Project>, id: string, p: Project)
    requires InsertionOrder(order, m) && id !in m
    ensures ValuesInOrder(OrderAfterSet(order, m, id), m[id := p]) == ValuesInOrder(order, m) + [p]
  {
    var before := ValuesInOrder(order, m);
    var after := ValuesInOrder(order + [id], m[id := p]);
    forall i | 0 <= i < |order| ensures after[i] == before[i] {
      assert order[i] in m;
    }
    assert after == before + [p];
  }

  /**
   * The cache writes common to creating a project and adding a note: the
   * project is cached under `project:<id>` for 300 s, then `projects:all`
   * is deleted.
   */
  method CacheProjectDropListing(cache: Cache<Json>, id: string, p: Project, now: int)
    requires cache.Valid() && WellTyped(cache.store)
    modifies cache
    ensures cache.Valid() && WellTyped(cache.store)
    ensures cache.store == RemoveKeys(Write(old(cache.store), ProjectKey(id),
                                            Entry(ProjectObj(p), ExpiryAt(now, Some(Ttl)))),
                                      {ListCacheKey})
    ensures ListCacheKey !in cache.store
  {
    KeyFamiliesDisjoint(id, "", 0);
    WriteKeepsTyped(cache.store, ProjectKey(id), Entry(ProjectObj(p), ExpiryAt(now, Some(Ttl))));
    var _ := cache.Set(id, ProjectObj(p), ProjectWriteOptions, now);
    ghost var written := cache.store;
    var _ := cache.Del(One(ListCacheKey), NoOptions);
    DelOneIsDelList(ListCacheKey, NoOptions);
    ShrinkKeepsTyped(cache.store, written);
  }

  class ProjectController {
    var order: seq<string>
    var projects: map<string, Project>
    const cache: Cache<Json>

    ghost predicate Valid()
      reads this, cache
    {
      cache.Valid() && WellTyped(cache.store) && TableValid()
    }

    /** The table is keyed by project id, and its key order lists each key once. */
    ghost predicate TableValid()
      reads this
    {
      && InsertionOrder(order, projects)
      && (forall id :: id in projects ==> projects[id].id == id)
    }

    /** The table's projects in insertion order. */
    function Listing(): seq<Project>
      reads this
      requires InsertionOrder(order, projects)
    {
      ValuesInOrder(order, projects)
    }

    constructor (cache: Cache<Json>)
      requires cache.Valid() && WellTyped(cache.store)
      ensures Valid() && this.cache == cache && order == [] && projects == map[]
    {
      this.cache := cache;
      order := [];
      projects := map[];
    }

    /**
     * GET /projects: read-through on `projects:all`. A live cached listing is
     * returned as it is, without looking at the table; otherwise the table's
     * projects are listed in insertion order and cached for 300 s.
     */
    method Index(now: int) returns (res: Response)
      requires Valid()
      modifies cache
      ensures Valid()
      ensures res.status == 200 && res.body.ProjectList?
      ensures Lookup(old(cache.store), ListCacheKey, now).Some? ==>
        && res.body == Lookup(old(cache.store), ListCacheKey, now).value
        && cache.store == old(cache.store)
      ensures Lookup(old(cache.store), ListCacheKey, now).None? ==>
        && res.body == ProjectList(Listing())
        && cache.store == Write(Prune(old(cache.store), ListCacheKey, now), ListCacheKey,
                                Entry(ProjectList(Listing()), ExpiryAt(now, Some(Ttl))))
    {
      KeyFamiliesDisjoint("", "", 0);
      var cachedResult := cache.Get(ListCacheKey, NoOptions, now);
      ShrinkKeepsTyped(cache.store, old(cache.store));
      if cachedResult.Some? {
        return Response(200, cachedResult.value);
      }
      var list := ValuesInOrder(order, projects);
      WriteKeepsTyped(cache.store, ListCacheKey, Entry(ProjectList(list), ExpiryAt(now, Some(Ttl))));
      var _ := cache.Set(ListCacheKey, ProjectList(list), TtlOptions, now);
      res := Response(200, ProjectList(list));
    }

    /**
     * POST /projects: adds a project with the fresh id and the given name,
     * caches it under `project:<id>` for 300 s and drops `projects:all`.
     */
    method Store(name: string, id: string, now: int) returns (res: Response)
      requires Valid()
      modifies this, cache
      ensures Valid()
      ensures id in projects && fresh(projects[id])
      ensures projects[id].id == id && projects[id].name == name && projects[id].notes == []
      ensures projects == old(projects)[id := projects[id]]
      ensures order == OrderAfterSet(old(order), old(projects), id)
      ensures id !in old(projects) ==> Listing() == old(Listing()) + [projects[id]]
      ensures res == Response(201, ProjectObj(projects[id]))
      ensures cache.store == RemoveKeys(Write(old(cache.store), ProjectKey(id),
                                              Entry(ProjectObj(projects[id]), ExpiryAt(now, Some(Ttl)))),
                                        {ListCacheKey})
      ensures ListCacheKey !in cache.store
    {
      var newProject := new Project(id, name);
      SetKeepsOrder(order, projects, id, newProject);
      if id !in projects {
        ListingAfterSet(order, projects, id, newProject);
      }
      order := OrderAfterSet(order, projects, id);
      projects := projects[id := newProject];
      assert TableValid();
      CacheProjectDropListing(cache, id, newProject, now);
      res := Response(201, ProjectObj(newProject));
    }

    /**
     * GET /projects/:id/notes: checks the id and the limit, then reads
     * through `notes:<id>:limit:<limit>`; on a miss it finds the project in
     * the cache or else in the table (caching it), and caches the page.
     */
    method NotesList(projectId: string, parsedLimit: Option<int>, now: int) returns (res: Response)
      requires Valid()
      modifies cache
      ensures Valid()
      ensures forall p :: p in projects.Values ==> p.notes == old(p.notes)
      // 422: no project id; nothing read or written.
      ensures projectId == "" ==> res.status == 422 && cache.store == old(cache.store)
      // 400: limit above 50, rejected before any cache access.
      ensures projectId != "" && PageLimit(parsedLimit) > MaxLimit ==>
        res.status == 400 && cache.store == old(cache.store)
      // A live cached page is returned as it is.
      ensures projectId != "" && PageLimit(parsedLimit) <= MaxLimit &&
              Lookup(old(cache.store), NotesCacheKey(projectId, PageLimit(parsedLimit)), now).Some? ==>
        && res == Response(200, Lookup(old(cache.store), NotesCacheKey(projectId, PageLimit(parsedLimit)), now).value)
        && cache.store == old(cache.store)
      // 404: found neither in the cache nor in the table; no page is cached.
      ensures projectId != "" && PageLimit(parsedLimit) <= MaxLimit &&
              Lookup(old(cache.store), NotesCacheKey(projectId, PageLimit(parsedLimit)), now).None? &&
              Lookup(old(cache.store), ProjectKey(projectId), now).None? && projectId !in projects ==>
        && res.status == 404
        && cache.store == Prune(Prune(old(cache.store), NotesCacheKey(projectId, PageLimit(parsedLimit)), now),
                                ProjectKey(projectId), now)
        && NotesCacheKey(projectId, PageLimit(parsedLimit)) !in cache.store
      // Project taken from the cache: its page is computed and cached.
      ensures projectId != "" && PageLimit(parsedLimit) <= MaxLimit &&
              Lookup(old(cache.store), NotesCacheKey(projectId, PageLimit(parsedLimit)), now).None? &&
              Lookup(old(cache.store), ProjectKey(projectId), now).Some? ==>
        var p := Lookup(old(cache.store), ProjectKey(projectId), now).value.project;
        var page := NotesPageOf(projectId, p.notes, PageLimit(parsedLimit));
        && res == Response(200, page)
        && cache.store == Write(Prune(old(cache.store), NotesCacheKey(projectId, PageLimit(parsedLimit)), now),
                                NotesCacheKey(projectId, PageLimit(parsedLimit)), Entry(page, ExpiryAt(now, Some(Ttl))))
      // Project taken from the table: it is cached, then its page is.
      ensures projectId != "" && PageLimit(parsedLimit) <= MaxLimit &&
              Lookup(old(cache.store), NotesCacheKey(projectId, PageLimit(parsedLimit)), now).None? &&
              Lookup(old(cache.store), ProjectKey(projectId), now).None? && projectId in projects ==>
        var p := projects[projectId];
        var page := NotesPageOf(projectId, p.notes, PageLimit(parsedLimit));
        && res == Response(200, page)
        && cache.store == Write(Write(Prune(Prune(old(cache.store), NotesCacheKey(projectId, PageLimit(parsedLimit)), now),
                                            ProjectKey(projectId), now),
                                      ProjectKey(projectId), Entry(ProjectObj(p), ExpiryAt(now, Some(Ttl)))),
                                NotesCacheKey(projectId, PageLimit(parsedLimit)), Entry(page, ExpiryAt(now, Some(Ttl))))
    {
      var limit := PageLimit(parsedLimit);
      if projectId == "" {
        return Response(422, Message("Project ID is required"));
      }
      if limit > MaxLimit {
        return Response(400, Message("Limit cannot exceed 50 notes per request"));
      }

      var notesCacheKey := NotesCacheKey(projectId, limit);
      KeyFamiliesDisjoint(projectId, projectId, limit);
      var cachedNotesResult := cache.Get(notesCacheKey, NoOptions, now);
      ShrinkKeepsTyped(cache.store, old(cache.store));
      if cachedNotesResult.Some? {
        return Response(200, cachedNotesResult.value);
      }

      ghost var s1 := cache.store;
      PruneIsUnobservable(old(cache.store), notesCacheKey, now, ProjectKey(projectId));
      var cachedProject := cache.Get(projectId, ProjectReadOptions, now);
      ShrinkKeepsTyped(cache.store, s1);
      var project: Project;
      if cachedProject.Some? {
        project := cachedProject.value.project;
      } else {
        if projectId !in projects {
          return Response(404, Message("Project not found"));
        }
        project := projects[projectId];
        WriteKeepsTyped(cache.store, ProjectKey(projectId), Entry(ProjectObj(project), ExpiryAt(now, Some(Ttl))));
        var _ := cache.Set(projectId, ProjectObj(project), ProjectWriteOptions, now);
      }

      var notesResult := NotesPageOf(projectId, project.notes, limit);
      WriteKeepsTyped(cache.store, notesCacheKey, Entry(notesResult, ExpiryAt(now, Some(Ttl))));
      var _ := cache.Set(notesCacheKey, notesResult, TtlOptions, now);
      res := Response(200, notesResult);
    }

    /**
     * POST /projects/:id/notes: appends a note with the trimmed text to the
     * project, re-caches the project and drops `projects:all`. Cached note
     * pages of the project are left in place.
     */
    method StoreNote(projectId: string, text: Option<string>, noteId: string, createdAt: int, now: int)
      returns (res: Response)
      requires Valid()
      modifies this, cache, projects.Values
      ensures Valid()
      ensures projects == old(projects) && order == old(order)
      ensures projectId == "" || MissingText(text) || projectId !in projects ==>
        && res.status == (if projectId == "" then 422 else if MissingText(text) then 400 else 404)
        && cache.store == old(cache.store)
        && forall p :: p in projects.Values ==> p.notes == old(p.notes)
      ensures projectId != "" && !MissingText(text) && projectId in projects ==>
        var p := projects[projectId];
        && res.status == 201
        && |p.notes| == |old(p.notes)| + 1
        && p.notes[..|old(p.notes)|] == old(p.notes)
        && fresh(p.notes[|old(p.notes)|])
        && p.notes[|old(p.notes)|].id == noteId
        && p.notes[|old(p.notes)|].projectId == projectId
        && p.notes[|old(p.notes)|].text == Trim(text.value)
        && p.notes[|old(p.notes)|].createdAt == createdAt
        && (forall q :: q in projects.Values && q != p ==> q.notes == old(q.notes))
        && cache.store == RemoveKeys(Write(old(cache.store), ProjectKey(projectId),
                                           Entry(ProjectObj(p), ExpiryAt(now, Some(Ttl)))),
                                     {ListCacheKey})
    {
      if projectId == "" {
        return Response(422, Message("Project ID is required"));
      }
      if MissingText(text) {
        return Response(400, Message("Note text is required"));
      }
      if projectId !in projects {
        return Response(404, Message("Project not found"));
      }
      var project := projects[projectId];
      var note := new Note(noteId, projectId, Trim(text.value), createdAt);
      project.notes := project.notes + [note];
      projects := projects[projectId := project];
      assert projects == old(projects);

      CacheProjectDropListing(cache, projectId, project, now);

      res := Response(201, Message("Note has been added successfully."));
    }
  }
}
