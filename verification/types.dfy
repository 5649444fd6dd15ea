/** The records shared by the cache and the two controllers. */
module Types {

  /** A value that may be absent (`undefined` in the service). */
  datatype Option<+T> = None | Some(value: T)

  /** Per-call cache options: an optional time-to-live in seconds and an optional key prefix. */
  datatype CacheOptions = CacheOptions(ttl: Option<int>, prefix: Option<string>)

  /** No options at all (`options` left out of the call). */
  const NoOptions := CacheOptions(None, None)

  /**
   * A note. Only `text` is ever changed after creation; `createdAt` is the
   * creation instant in milliseconds (`Date.getTime()`).
   */
  class Note {
    const id: string
    const projectId: string
    var text: string
    const createdAt: int

    constructor (id: string, projectId: string, text: string, createdAt: int)
      ensures this.id == id && this.projectId == projectId
      ensures this.text == text && this.createdAt == createdAt
    {
      this.id := id;
      this.projectId := projectId;
      this.text := text;
      this.createdAt := createdAt;
    }
  }

  /**
   * A project. Its note list grows in place; a list that was never created
   * (`notes` undefined) is represented by the empty sequence, which every
   * handler treats the same way.
   */
  class Project {
    const id: string
    const name: string
    var notes: seq<Note>

    constructor (id: string, name: string)
      ensures this.id == id && this.name == name && notes == []
    {
      this.id := id;
      this.name := name;
      notes := [];
    }
  }

  /**
   * The JSON bodies the handlers produce, which are also the values they put
   * in the cache. Objects are held by reference, as the cache does not clone.
   */
  datatype Json =
    | ProjectList(projects: seq<Project>)
    | ProjectObj(project: Project)
    | NotesPage(projectId: string, notes: seq<Note>, total: int, limit: int)
    | Message(text: string)

  /** An HTTP answer: status code and body. */
  datatype Response = Response(status: int, body: Json)
}
