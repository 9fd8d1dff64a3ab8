/** controllers/noteController.go. The note model carries no validation tags, so the
    validation step of `CreateNote` always passes; its fields are plain strings, so the
    update treats "" as absent and can never clear a field. Notes are stored under the keys
    the handlers filter on; `Findings` covers the untagged layout the driver would write. */
module Notes {
  import opened Wrappers
  import opened Replies
  import opened Clock
  import opened Documents
  import opened Stores
  import opened Models

  function NoteFields(p: NotePayload): Doc
  {
    map["text" := Str(p.text), "title" := Str(p.title)]
  }

  /** `CreateNote`: insert the stamped document. */
  function CreateNote(s: Store, p: NotePayload, env: Env): (r: Store)
    ensures r.(notes := s.notes) == s
    ensures r.notes == s.notes + [Created(NoteFields(p), "note_id", env)]
  {
    s.(notes := s.notes + [Created(NoteFields(p), "note_id", env)])
  }

  /** The `$set` document of `UpdateNote`: a field is staged only when non-empty. */
  function NoteChanges(p: NotePayload, now: Instant): (staged: Doc)
    ensures "text" in staged <==> p.text != ""
    ensures "title" in staged <==> p.title != ""
    ensures staged.Keys <= {"text", "title", "updated_at"}
    ensures "updated_at" in staged && staged["updated_at"] == Stamp(now)
    ensures forall k :: k in staged && k != "updated_at" ==> staged[k] == NoteFields(p)[k] && staged[k] != Str("")
  {
    var staged := Stage(map[], "text", if p.text != "" then Some(Str(p.text)) else None);
    var staged := Stage(staged, "title", if p.title != "" then Some(Str(p.title)) else None);
    staged["updated_at" := Stamp(now)]
  }

  /** `UpdateNote`: the staged fields are `$set` on the note keyed by `note_id`, inserting
      one if there is none. */
  function UpdateNote(s: Store, id: string, p: NotePayload, env: Env): (r: Store)
    ensures r.(notes := s.notes) == s
    ensures Upserted(s.notes, r.notes, "note_id", id, NoteChanges(p, env.now), env.upsertedId)
  {
    s.(notes := UpdateOneUpsert(s.notes, "note_id", id, NoteChanges(p, env.now), env.upsertedId))
  }

  /** No update empties a note's text or title that was set. */
  lemma UpdateNeverClearsNote(s: Store, id: string, p: NotePayload, env: Env, i: int, k: string)
    requires 0 <= i < |s.notes|
    requires k == "text" || k == "title"
    requires Get(s.notes[i], k) != Str("")
    ensures Get(UpdateNote(s, id, p, env).notes[i], k) != Str("")
  {
    var after := UpdateNote(s, id, p, env).notes;
    if Exists(s.notes, "note_id", Str(id)) {
      var m := FindFirst(s.notes, "note_id", Str(id)).value;
      if i != m {
        assert after[i] == s.notes[i];
      }
    } else {
      assert after[i] == s.notes[i];
    }
  }
}
