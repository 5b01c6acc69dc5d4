/**
 * The manifest updater: the read-modify-write of `modpacks.json` performed by
 * `update_modpacks_json` in src/installer.py.
 *
 * The JSON text itself is not modelled; reading the file yields a `FileState`
 * (the file is missing, cannot be opened or decoded as text, is not valid
 * JSON, or parses to a `Json` value), and writing stores a `Json` value.
 */
module Manifest {
  import opened Wrappers

  /** A JSON value as the JSON reader returns it. Numbers are kept as integers. */
  datatype Json =
    | JNull
    | JBool(b: bool)
    | JNumber(n: int)
    | JString(s: string)
    | JArray(items: seq<Json>)
    | JObject(members: map<string, Json>)

  /** The record stored under a pack key. */
  datatype PackRecord = PackRecord(name: string, version: string, modLoader: string)

  /** What opening and decoding `modpacks.json` yields. */
  datatype FileState =
    | Missing              // the file does not exist
    | Unreadable           // it exists but cannot be opened or decoded as UTF-8 text
    | Corrupt              // its text is not valid JSON
    | Parsed(doc: Json)    // its text parses to `doc`

  /** Why an update fails; each stands for an exception that the updater re-raises. */
  datatype ManifestError =
    | OpenFailed           // opening or reading the existing file raised
    | NotAnObject          // the document is not a JSON object, so `doc["packs"]` raises TypeError
    | NoPacksMember        // the document has no "packs" member, so `doc["packs"]` raises KeyError
    | PacksNotContainer    // `key in packs` raises TypeError (a number, a boolean or null)
    | PacksNotMapping      // `packs[key] = ...` raises TypeError (an array or a string)

  /** Whether the update added the record or found the key already there. */
  datatype UpdateOutcome = Added | AlreadyPresent

  datatype Upserted = Upserted(outcome: UpdateOutcome, doc: Json)

  /** The JSON object written for a record. */
  function RecordJson(r: PackRecord): (j: Json)
    ensures RecordOf(j) == Some(r)
  {
    var m := map["name" := JString(r.name), "version" := JString(r.version), "modLoader" := JString(r.modLoader)];
    assert "name" in m && "version" in m && "modLoader" in m;
    assert m.Keys == {"name", "version", "modLoader"};
    JObject(m)
  }

  /** Reads a record back from its JSON form; `None` for anything not of that shape. */
  function RecordOf(j: Json): (r: Option<PackRecord>)
    ensures r.Some? ==> j == JObject(map["name" := JString(r.value.name),
                                         "version" := JString(r.value.version),
                                         "modLoader" := JString(r.value.modLoader)])
  {
    if j.JObject? && j.members.Keys == {"name", "version", "modLoader"}
       && j.members["name"].JString? && j.members["version"].JString? && j.members["modLoader"].JString?
    then
      var r := PackRecord(j.members["name"].s, j.members["version"].s, j.members["modLoader"].s);
      assert map["name" := JString(r.name), "version" := JString(r.version), "modLoader" := JString(r.modLoader)]
             == j.members;
      Some(r)
    else None
  }

  /** The document the updater starts from when there is no usable file. */
  const DefaultDocument: Json := JObject(map["packs" := JObject(map[])])

  /** `key` occurs as a contiguous piece of `s` (Python's `key in s` on strings). */
  predicate IsSubstring(key: string, s: string)
    decreases |s|
  {
    key <= s || (|s| > 0 && IsSubstring(key, s[1..]))
  }

  /** `key` occurs in `s` starting at position `i`. */
  predicate OccursAt(key: string, s: string, i: int) {
    0 <= i <= |s| - |key| && s[i..i + |key|] == key
  }

  /** `IsSubstring` holds exactly when `key` occurs at some position of `s`. */
  lemma {:induction false} IsSubstringOccurs(key: string, s: string)
    ensures IsSubstring(key, s) <==> exists i :: OccursAt(key, s, i)
    decreases |s|
  {
    if key <= s {
      assert OccursAt(key, s, 0);
    } else if |s| > 0 {
      IsSubstringOccurs(key, s[1..]);
      if IsSubstring(key, s[1..]) {
        var i :| OccursAt(key, s[1..], i);
        assert s[1..][i..i + |key|] == s[i + 1..i + 1 + |key|];
        assert OccursAt(key, s, i + 1);
      }
      if i :| OccursAt(key, s, i) && i > 0 {
        assert s[1..][i - 1..i - 1 + |key|] == s[i..i + |key|];
        assert OccursAt(key, s[1..], i - 1);
      }
    }
  }

  /** Python's `key in container` for a string key and a JSON value. */
  function Contains(container: Json, key: string): (r: Result<bool, ManifestError>)
    ensures container.JObject? ==> r == Ok(key in container.members)
    ensures container.JArray? ==> r == Ok(exists i :: 0 <= i < |container.items| && container.items[i] == JString(key))
    ensures container.JString? ==> r == Ok(exists i :: OccursAt(key, container.s, i))
    ensures r.Err? <==> (container.JNull? || container.JBool? || container.JNumber?)
  {
    match container
    case JObject(m) => Ok(key in m)
    case JArray(items) => Ok(JString(key) in items)
    case JString(s) =>
      IsSubstringOccurs(key, s);
      Ok(IsSubstring(key, s))
    case _ => Err(PacksNotContainer)
  }

  /** The document the updater starts from, or the error reading the file raises. */
  function StartingDocument(f: FileState): (r: Result<Json, ManifestError>)
    ensures r.Err? <==> f.Unreadable?
    ensures (f.Missing? || f.Corrupt?) ==> r == Ok(DefaultDocument)
    ensures f.Parsed? ==> r == Ok(f.doc)
  {
    match f
    case Missing => Ok(DefaultDocument)
    case Corrupt => Ok(DefaultDocument)
    case Unreadable => Err(OpenFailed)
    case Parsed(doc) => Ok(doc)
  }

  /** The pack key is present in the document, in the sense of Python's `in` on `doc["packs"]`. */
  predicate HasPack(doc: Json, key: string) {
    doc.JObject? && "packs" in doc.members && Contains(doc.members["packs"], key) == Ok(true)
  }

  /** `m'` agrees with `m` on every key other than `k`. */
  predicate SameExcept<V(==)>(m: map<string, V>, m': map<string, V>, k: string) {
    && (forall j :: j in m && j != k ==> j in m' && m'[j] == m[j])
    && (forall j :: j in m' && j != k ==> j in m)
  }

  /**
   * The new document the updater writes, starting from what reading the file
   * gave: the record is inserted under `key` only if the key is absent.
   */
  function Upsert(f: FileState, key: string, rec: PackRecord): (r: Result<Upserted, ManifestError>)
    // after every successful update the key is present
    ensures r.Ok? ==> HasPack(r.value.doc, key)
    // first write wins: a present key leaves the document as it was
    ensures f.Parsed? && HasPack(f.doc, key) ==> r == Ok(Upserted(AlreadyPresent, f.doc))
    // a missing or undecodable file is replaced by the default document plus the new entry
    ensures (f.Missing? || f.Corrupt?) ==>
      r == Ok(Upserted(Added, JObject(map["packs" := JObject(map[key := RecordJson(rec)])])))
    // an added key maps to exactly the new record and nothing else changes;
    // reporting AlreadyPresent means the document is written back unchanged
    ensures r.Ok? ==>
      && StartingDocument(f).Ok?
      && var doc := StartingDocument(f).value;
      && doc.JObject? && "packs" in doc.members
      && var packs := doc.members["packs"];
      && var doc' := r.value.doc;
      && (r.value.outcome.Added? ==>
            && packs.JObject? && key !in packs.members
            && doc'.JObject? && SameExcept(doc.members, doc'.members, "packs")
            && "packs" in doc'.members && doc'.members["packs"].JObject?
            && SameExcept(packs.members, doc'.members["packs"].members, key)
            && key in doc'.members["packs"].members
            && doc'.members["packs"].members[key] == RecordJson(rec))
      && (r.value.outcome.AlreadyPresent? ==> doc' == doc)
  {
    match StartingDocument(f)
    case Err(e) => Err(e)
    case Ok(doc) =>
      if !doc.JObject? then Err(NotAnObject)
      else if "packs" !in doc.members then Err(NoPacksMember)
      else
        var packs := doc.members["packs"];
        match Contains(packs, key)
        case Err(e) => Err(e)
        case Ok(present) =>
          if present then Ok(Upserted(AlreadyPresent, doc))
          else if packs.JObject? then
            var doc' := JObject(doc.members["packs" := JObject(packs.members[key := RecordJson(rec)])]);
            assert doc == DefaultDocument ==>
              doc' == JObject(map["packs" := JObject(map[key := RecordJson(rec)])]);
            Ok(Upserted(Added, doc'))
          else Err(PacksNotMapping)
  }

  /** Exactly these starting documents make the update raise. */
  lemma UpsertFailsExactly(f: FileState, key: string, rec: PackRecord)
    ensures Upsert(f, key, rec).Err? <==>
      || f.Unreadable?
      || (f.Parsed? && !f.doc.JObject?)
      || (f.Parsed? && f.doc.JObject? && "packs" !in f.doc.members)
      || (f.Parsed? && f.doc.JObject? && "packs" in f.doc.members
          && !f.doc.members["packs"].JObject? && !HasPack(f.doc, key))
  {
  }

  /** Applying the same update to the document the previous one wrote changes nothing. */
  lemma UpsertIdempotent(f: FileState, key: string, rec: PackRecord)
    requires Upsert(f, key, rec).Ok?
    ensures Upsert(Parsed(Upsert(f, key, rec).value.doc), key, rec)
            == Ok(Upserted(AlreadyPresent, Upsert(f, key, rec).value.doc))
  {
  }

  /** A later update under the same key keeps the record of the first, whatever it carries. */
  lemma UpsertFirstWriteWins(f: FileState, key: string, first: PackRecord, second: PackRecord)
    requires Upsert(f, key, first).Ok?
    ensures Upsert(Parsed(Upsert(f, key, first).value.doc), key, second)
            == Ok(Upserted(AlreadyPresent, Upsert(f, key, first).value.doc))
  {
  }

  /**
   * The file `modpacks.json`. `writes` counts how often it has been rewritten,
   * which it is on every successful update, even when nothing was added.
   */
  class ManifestFile {
    var state: FileState
    var writes: nat

    constructor (initial: FileState)
      ensures state == initial && writes == 0
    {
      state := initial;
      writes := 0;
    }

    /** Loads the file, inserts the record if the key is absent and writes the document back. */
    method Update(key: string, name: string, modLoader: string, version: string)
      returns (r: Result<UpdateOutcome, ManifestError>)
      modifies this
      ensures var u := Upsert(old(state), key, PackRecord(name, version, modLoader));
        && (u.Ok? ==> r == Ok(u.value.outcome) && state == Parsed(u.value.doc) && writes == old(writes) + 1)
        && (u.Err? ==> r == Err(u.error) && state == old(state) && writes == old(writes))
    {
      var data := DefaultDocument;
      match state {
        case Unreadable => return Err(OpenFailed);
        case Parsed(doc) => data := doc;
        case Missing =>
        case Corrupt =>
      }
      if !data.JObject? {
        return Err(NotAnObject);
      }
      if "packs" !in data.members {
        return Err(NoPacksMember);
      }
      var packs := data.members["packs"];
      var present := Contains(packs, key);
      if present.Err? {
        return Err(present.error);
      }
      if !present.value {
        if !packs.JObject? {
          return Err(PacksNotMapping);
        }
        var entry := RecordJson(PackRecord(name, version, modLoader));
        data := JObject(data.members["packs" := JObject(packs.members[key := entry])]);
        r := Ok(Added);
      } else {
        r := Ok(AlreadyPresent);
      }
      state := Parsed(data);
      writes := writes + 1;
    }
  }
}
