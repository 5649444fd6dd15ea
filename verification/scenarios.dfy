/**
 * Request sequences against one cache shared by both controllers, showing
 * what the handlers' contracts imply together: read-through of the listing,
 * its invalidation by a new project, a note edit made through the cached
 * listing and seen by the project table, and a cached note page that a new
 * note does not invalidate.
 */
module Scenarios {
  import opened Types
  import opened NodeStore
  import opened CacheUtil
  import opened Text
  import opened ProjectControllers
  import opened NoteControllers

  /** A fresh service after POST /projects at instant 0. */
  method NewProject(projectId: string, name: string) returns (projects: ProjectController, p: Project)
    ensures fresh(projects) && fresh(projects.cache) && fresh(p)
    ensures projects.Valid() && projects.projects == map[projectId := p] && projects.order == [projectId]
    ensures p.notes == []
    ensures projects.cache.store.Keys == {ProjectKey(projectId)}
    ensures projects.cache.store[ProjectKey(projectId)] == Entry(ProjectObj(p), 300000)
  {
    var cache := new Cache<Json>();
    projects := new ProjectController(cache);
    var _ := projects.Store(name, projectId, 0);
    p := projects.projects[projectId];
  }

  /** The same, followed by POST /projects/:id/notes at instant 0. */
  method ProjectWithNote(projectId: string, noteId: string, text: string)
    returns (projects: ProjectController, p: Project, n: Note)
    requires projectId != "" && !MissingText(Some(text))
    ensures fresh(projects) && fresh(projects.cache) && fresh(p) && fresh(n)
    ensures projects.Valid() && projects.projects == map[projectId := p] && projects.order == [projectId]
    ensures p.notes == [n] && n.id == noteId
    ensures projects.cache.store.Keys == {ProjectKey(projectId)}
    ensures projects.cache.store[ProjectKey(projectId)] == Entry(ProjectObj(p), 300000)
  {
    projects, p := NewProject(projectId, "Alpha");
    var _ := projects.StoreNote(projectId, Some(text), noteId, 0, 0);
    n := p.notes[0];
  }

  /**
   * GET /projects twice within the ttl: the first call caches the listing it
   * returns, the second is served from the cache and writes nothing.
   */
  method ListingIsReadThrough(projectId: string)
    returns (p: Project, first: Response, cachedAfterFirst: Option<Json>, second: Response, secondWroteNothing: bool)
    ensures p.id == projectId
    ensures first == Response(200, ProjectList([p]))
    ensures cachedAfterFirst == Some(first.body)
    ensures second == first && secondWroteNothing
  {
    var projects;
    projects, p := NewProject(projectId, "Alpha");
    first := projects.Index(1000);
    assert projects.Listing() == [p];
    cachedAfterFirst := Lookup(projects.cache.store, ListCacheKey, 2000);
    var storeBefore := projects.cache.store;
    second := projects.Index(2000);
    secondWroteNothing := projects.cache.store == storeBefore;
  }

  /** POST /projects drops the cached listing, so the next GET /projects lists the new project last. */
  method NewProjectInvalidatesListing(firstId: string, secondId: string)
    returns (before: Response, after: Response, q: Project)
    requires firstId != secondId
    ensures before.body.ProjectList? && |before.body.projects| == 1 && before.body.projects[0].id == firstId
    ensures q.id == secondId && q.name == "Beta"
    ensures after.body == ProjectList(before.body.projects + [q])
  {
    var projects, p := NewProject(firstId, "Alpha");
    before := projects.Index(1000);
    assert projects.Listing() == [p];
    var _ := projects.Store("Beta", secondId, 2000);
    q := projects.projects[secondId];
    after := projects.Index(3000);
  }

  /** GET /projects on a one-project service: the listing is cached, holding that project. */
  method CacheListing(projects: ProjectController, p: Project, projectId: string) returns (listing: Response)
    requires projects.Valid() && projects.projects == map[projectId := p] && projects.order == [projectId]
    requires ListCacheKey !in projects.cache.store && |projects.cache.store| <= 1
    modifies projects.cache
    ensures projects.Valid()
    ensures LiveProjects(projects.cache.store, 2000) == [p]
  {
    listing := projects.Index(1000);
    assert projects.Listing() == [p];
  }

  /**
   * PATCH /notes/:id edits the note object held by the cached listing, which
   * is the very object the project table holds: the table sees the new text,
   * although the note handler never touches the table.
   */
  method EditIsSharedThroughTheCache(projectId: string, noteId: string, draft: string, final: string)
    returns (status: int, text: string)
    requires projectId != "" && !MissingText(Some(draft)) && !MissingText(Some(final))
    ensures status == 200 && text == Trim(final)
  {
    var projects, p, n := ProjectWithNote(projectId, noteId, draft);
    var notes := new NoteController(projects.cache);
    var _ := CacheListing(projects, p, projectId);
    assert FirstHolder([p], noteId) == 0;
    var r := notes.Update(noteId, Some(final), 2000);
    status := r.status;
    text := projects.projects[projectId].notes[0].text;
  }

  /** GET /projects/:id/notes on a project with one note, caching its first page. */
  method FirstPage(projects: ProjectController, p: Project, n: Note, projectId: string) returns (page: Response)
    requires projectId != ""
    requires projects.Valid() && projects.projects == map[projectId := p] && p.notes == [n]
    requires projects.cache.store.Keys == {ProjectKey(projectId)}
    requires projects.cache.store[ProjectKey(projectId)] == Entry(ProjectObj(p), 300000)
    modifies projects.cache
    ensures projects.Valid()
    ensures page.status == 200 && page.body.NotesPage? && page.body.total == 1
    ensures NotesCacheKey(projectId, DefaultLimit) in projects.cache.store
    ensures projects.cache.store[NotesCacheKey(projectId, DefaultLimit)] == Entry(page.body, 301000)
  {
    KeyFamiliesDisjoint(projectId, projectId, DefaultLimit);
    page := projects.NotesList(projectId, None, 1000);
  }

  /** POST /projects/:id/notes, then GET /projects/:id/notes while a page of the project is cached. */
  method NoteThenPage(projects: ProjectController, p: Project, projectId: string, noteId: string, text: string,
                      cached: Json)
    returns (page: Response)
    requires projectId != "" && !MissingText(Some(text))
    requires projects.Valid() && projects.projects == map[projectId := p] && |p.notes| == 1
    requires NotesCacheKey(projectId, DefaultLimit) in projects.cache.store
    requires projects.cache.store[NotesCacheKey(projectId, DefaultLimit)] == Entry(cached, 301000)
    modifies projects, projects.cache, p
    ensures page == Response(200, cached)
    ensures projects.projects == map[projectId := p] && |p.notes| == 2
  {
    KeyFamiliesDisjoint(projectId, projectId, DefaultLimit);
    var _ := projects.StoreNote(projectId, Some(text), noteId, 2000, 2000);
    assert Lookup(projects.cache.store, NotesCacheKey(projectId, DefaultLimit), 3000) == Some(cached);
    page := projects.NotesList(projectId, None, 3000);
  }

  /**
   * Adding a note does not drop the project's cached note pages: within
   * their ttl they are still served, reporting one note while the project
   * holds two.
   */
  method NotesPageOutlivesNewNote(projectId: string, noteId: string, first: string, second: string)
    returns (before: Response, after: Response, notesNow: int)
    requires projectId != "" && !MissingText(Some(first)) && !MissingText(Some(second))
    ensures before.body.NotesPage? && before.body.total == 1
    ensures after == before
    ensures notesNow == 2
  {
    var projects, p, n := ProjectWithNote(projectId, noteId, first);
    before := FirstPage(projects, p, n, projectId);
    after := NoteThenPage(projects, p, projectId, noteId, second, before.body);
    notesNow := |projects.projects[projectId].notes|;
  }
}
