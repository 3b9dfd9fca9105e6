/** The platform settings page (app/admin/settings/page.tsx). The settings
    object is kept as its ordered list of entries, the form in which
    `Object.entries` walks it: a field change replaces the value in place or
    adds the key at the end, and saving turns the entries into a multipart
    body that sends files only when a new one was chosen. */
module AdminSettings {
  import opened Wrappers
  import opened Text
  import opened Multipart

  const SavedMessage := "Settings saved successfully!"
  const FetchFailed := "Failed to fetch settings"
  const SaveFailed := "Failed to save settings"

  /** The settings state before the first fetch, group by group. */
  const SiteDefaults: seq<Entry> := [
    Entry("site_name", Str("")), Entry("site_description", Str("")),
    Entry("primary_color", Str("#10B981")), Entry("secondary_color", Str("#3B82F6")),
    Entry("logo", Null), Entry("favicon", Null)]
  const ControlDefaults: seq<Entry> := [
    Entry("maintenance_mode", Flag(false)), Entry("allow_new_registrations", Flag(true))]
  const HeroDefaults: seq<Entry> := [
    Entry("hero_title", Str("")), Entry("hero_subtitle", Str("")), Entry("hero_image", Null)]
  const AnnouncementDefaults: seq<Entry> := [
    Entry("announcement_enabled", Flag(false)), Entry("announcement_text", Str("")),
    Entry("announcement_link", Str("")), Entry("announcement_type", Str("info"))]
  const ContactDefaults: seq<Entry> := [
    Entry("contact_email", Str("")), Entry("contact_phone", Str("")),
    Entry("contact_address", Str("")), Entry("facebook_url", Str("")),
    Entry("twitter_url", Str("")), Entry("linkedin_url", Str("")),
    Entry("instagram_url", Str("")), Entry("youtube_url", Str(""))]
  const DefaultSettings: seq<Entry> :=
    SiteDefaults + ControlDefaults + HeroDefaults + AnnouncementDefaults + ContactDefaults

  /** The keys that hold an image: a new `File`, the URL of the stored one,
      or `null`. */
  predicate IsFileKey(key: string) {
    key == "logo" || key == "favicon" || key == "hero_image"
  }

  // ---------------------------------------------------------------------
  // The settings object
  // ---------------------------------------------------------------------

  function KeysOf(entries: seq<Entry>): (r: seq<string>)
    ensures |r| == |entries|
    ensures forall i :: 0 <= i < |entries| ==> r[i] == entries[i].key
  {
    if entries == [] then [] else [entries[0].key] + KeysOf(entries[1..])
  }

  predicate UniqueKeys(entries: seq<Entry>) {
    forall i, j :: 0 <= i < j < |entries| ==> entries[i].key != entries[j].key
  }

  /** `settings[key]`, `None` for a key the object does not have. */
  function Get(entries: seq<Entry>, key: string): (r: Option<Value>)
    ensures r.None? <==> key !in KeysOf(entries)
    ensures r.Some? ==> exists i :: 0 <= i < |entries| && entries[i] == Entry(key, r.value)
  {
    if entries == [] then None
    else if entries[0].key == key then Some(entries[0].value)
    else
      var r := Get(entries[1..], key);
      assert r.Some? ==> exists i :: 1 <= i < |entries| && entries[i] == Entry(key, r.value) by {
        if r.Some? {
          var i :| 0 <= i < |entries[1..]| && entries[1..][i] == Entry(key, r.value);
          assert entries[i + 1] == Entry(key, r.value);
        }
      }
      r
  }

  /** `{ ...settings, [key]: value }`: an existing key keeps its place and
      takes the new value; a new key goes at the end. */
  function Put(entries: seq<Entry>, key: string, value: Value): (r: seq<Entry>)
    ensures key in KeysOf(entries) ==> KeysOf(r) == KeysOf(entries)
    ensures key !in KeysOf(entries) ==> KeysOf(r) == KeysOf(entries) + [key]
  {
    if entries == [] then [Entry(key, value)]
    else if entries[0].key == key then [Entry(key, value)] + entries[1..]
    else [entries[0]] + Put(entries[1..], key, value)
  }

  /** After a change the named field holds the new value. */
  lemma {:induction false} PutGetSame(entries: seq<Entry>, key: string, value: Value)
    ensures Get(Put(entries, key, value), key) == Some(value)
  {
    if entries != [] && entries[0].key != key {
      PutGetSame(entries[1..], key, value);
      assert Put(entries, key, value)[1..] == Put(entries[1..], key, value);
    }
  }

  /** A change leaves every other field as it was. */
  lemma {:induction false} PutGetOther(entries: seq<Entry>, key: string, value: Value, other: string)
    requires other != key
    ensures Get(Put(entries, key, value), other) == Get(entries, other)
  {
    if entries != [] {
      var r := Put(entries, key, value);
      if entries[0].key == key {
        assert r[1..] == entries[1..];
      } else {
        PutGetOther(entries[1..], key, value, other);
        assert r[1..] == Put(entries[1..], key, value);
      }
    }
  }

  /** `settings[key]` is the value of the first entry with that key. */
  lemma {:induction false} GetAt(entries: seq<Entry>, k: nat)
    requires k < |entries|
    requires forall j :: 0 <= j < k ==> entries[j].key != entries[k].key
    ensures Get(entries, entries[k].key) == Some(entries[k].value)
  {
    if k > 0 {
      GetAt(entries[1..], k - 1);
    }
  }

  /** A key of the first part of an object is read from that part. */
  lemma {:induction false} GetPrefix(a: seq<Entry>, b: seq<Entry>, key: string)
    requires key in KeysOf(a)
    ensures Get(a + b, key) == Get(a, key)
  {
    if a[0].key != key {
      assert (a + b)[1..] == a[1..] + b;
      GetPrefix(a[1..], b, key);
    }
  }

  /** Before the first fetch the primary colour is the default green. */
  lemma DefaultPrimaryColour()
    ensures Get(DefaultSettings, "primary_color") == Some(Str("#10B981"))
  {
    var rest := ControlDefaults + HeroDefaults + AnnouncementDefaults + ContactDefaults;
    GetIn(DefaultSettings, [], SiteDefaults, rest, 2);
  }

  /** Before the first fetch the secondary colour is the default blue. */
  lemma DefaultSecondaryColour()
    ensures Get(DefaultSettings, "secondary_color") == Some(Str("#3B82F6"))
  {
    var rest := ControlDefaults + HeroDefaults + AnnouncementDefaults + ContactDefaults;
    GetIn(DefaultSettings, [], SiteDefaults, rest, 3);
  }

  /** A key the first part of an object lacks is read from the rest. */
  lemma {:induction false} GetSuffix(a: seq<Entry>, b: seq<Entry>, key: string)
    requires forall i :: 0 <= i < |a| ==> a[i].key != key
    ensures Get(a + b, key) == Get(b, key)
  {
    if a != [] {
      var ab := a + b;
      assert ab[0] == a[0] && ab[0].key != key;
      assert ab[1..] == a[1..] + b;
      assert Get(ab, key) == Get(ab[1..], key);
      assert forall i :: 0 <= i < |a[1..]| ==> a[1..][i] == a[i + 1];
      GetSuffix(a[1..], b, key);
    } else {
      assert a + b == b;
    }
  }

  /** In an object made of a front part, a group and the rest, a key first
      found in the group is read from there. */
  lemma GetIn(d: seq<Entry>, front: seq<Entry>, group: seq<Entry>, back: seq<Entry>, k: nat)
    requires d == front + (group + back) && k < |group|
    requires forall j :: 0 <= j < k ==> group[j].key != group[k].key
    requires forall i :: 0 <= i < |front| ==> front[i].key != group[k].key
    ensures Get(d, group[k].key) == Some(group[k].value)
  {
    GetAt(group, k);
    assert KeysOf(group)[k] == group[k].key;
    GetPrefix(group, back, group[k].key);
    GetSuffix(front, group + back, group[k].key);
  }

  /** Before the first fetch maintenance mode is off. */
  lemma DefaultMaintenance()
    ensures Get(DefaultSettings, "maintenance_mode") == Some(Flag(false))
  {
    var rest := HeroDefaults + AnnouncementDefaults + ContactDefaults;
    GetIn(DefaultSettings, SiteDefaults, ControlDefaults, rest, 0);
  }

  /** Before the first fetch new registrations are allowed. */
  lemma DefaultRegistrations()
    ensures Get(DefaultSettings, "allow_new_registrations") == Some(Flag(true))
  {
    var rest := HeroDefaults + AnnouncementDefaults + ContactDefaults;
    GetIn(DefaultSettings, SiteDefaults, ControlDefaults, rest, 1);
  }

  /** Before the first fetch the announcement level is "info". */
  lemma DefaultAnnouncement()
    ensures Get(DefaultSettings, "announcement_type") == Some(Str("info"))
  {
    var front := SiteDefaults + ControlDefaults + HeroDefaults;
    GetIn(DefaultSettings, front, AnnouncementDefaults, ContactDefaults, 3);
  }

  /** A change keeps the keys distinct. */
  lemma PutUnique(entries: seq<Entry>, key: string, value: Value)
    requires UniqueKeys(entries)
    ensures UniqueKeys(Put(entries, key, value))
  {
    var r := Put(entries, key, value);
    forall i, j | 0 <= i < j < |r| ensures r[i].key != r[j].key {
      assert KeysOf(r)[i] == r[i].key && KeysOf(r)[j] == r[j].key;
      if key !in KeysOf(entries) && j == |entries| {
        assert KeysOf(entries)[i] == KeysOf(r)[i];
      }
    }
  }

  // ---------------------------------------------------------------------
  // The saved body
  // ---------------------------------------------------------------------

  /** What one entry adds to the body: a file key only a newly chosen file,
      never a stored URL or `null`; any other key `String(value)`. */
  function PartOf(e: Entry): (r: Option<Part>)
    ensures IsFileKey(e.key) ==>
      (r.Some? <==> e.value.Attached?) && (r.Some? ==> r.value == Upload(e.key, e.value.file))
    ensures !IsFileKey(e.key) ==> r == Some(Field(e.key, Stringify(e.value)))
  {
    if IsFileKey(e.key) then
      if e.value.Attached? then Some(Upload(e.key, e.value.file)) else None
    else Some(Field(e.key, Stringify(e.value)))
  }

  function Emit(e: Entry): seq<Part> {
    if PartOf(e).Some? then [PartOf(e).value] else []
  }

  function SaveParts(entries: seq<Entry>): seq<Part> {
    if entries == [] then [] else Emit(entries[0]) + SaveParts(entries[1..])
  }

  /** The body holds exactly what the entries add, each from its own entry. */
  lemma {:induction false} SavePartsSpec(entries: seq<Entry>, p: Part)
    ensures p in SaveParts(entries) <==> exists i :: 0 <= i < |entries| && PartOf(entries[i]) == Some(p)
  {
    if entries != [] {
      SavePartsSpec(entries[1..], p);
      if exists i :: 0 <= i < |entries| && PartOf(entries[i]) == Some(p) {
        var i :| 0 <= i < |entries| && PartOf(entries[i]) == Some(p);
        if i > 0 {
          assert PartOf(entries[1..][i - 1]) == Some(p);
        }
      }
      if exists i :: 0 <= i < |entries[1..]| && PartOf(entries[1..][i]) == Some(p) {
        var i :| 0 <= i < |entries[1..]| && PartOf(entries[1..][i]) == Some(p);
        assert PartOf(entries[i + 1]) == Some(p);
      }
    }
  }

  /** An image key is never sent as text, and a file is sent only when an
      image key holds it. */
  lemma FileKeysSentOnlyAsFiles(entries: seq<Entry>, p: Part)
    requires p in SaveParts(entries)
    ensures p.Field? ==> !IsFileKey(p.key)
    ensures p.Upload? ==> IsFileKey(p.key) && Entry(p.key, Attached(p.file)) in entries
  {
    SavePartsSpec(entries, p);
  }

  /** One step of the `forEach` of `saveSettings`: an image key appends its
      value only when it is a `File`; any other key appends `String(value)`. */
  method AppendEntry(parts: seq<Part>, e: Entry) returns (r: seq<Part>)
    ensures r == parts + Emit(e)
  {
    r := parts;
    if IsFileKey(e.key) {
      if e.value.Attached? {
        r := r + [Upload(e.key, e.value.file)];
      }
    } else {
      r := r + [Field(e.key, Stringify(e.value))];
    }
  }

  lemma SavePartsStep(entries: seq<Entry>, i: nat)
    requires i < |entries|
    ensures SaveParts(entries[i..]) == Emit(entries[i]) + SaveParts(entries[i + 1..])
  {
    assert entries[i..][1..] == entries[i + 1..];
  }

  lemma Regroup(a: seq<Part>, b: seq<Part>, c: seq<Part>)
    ensures (a + b) + c == a + (b + c)
  {
  }

  /** The `forEach` of `saveSettings`, appending to the body buffer. */
  method BuildBody(entries: seq<Entry>) returns (parts: seq<Part>)
    ensures parts == SaveParts(entries)
  {
    parts := [];
    var i := 0;
    assert entries[0..] == entries;
    while i < |entries|
      invariant 0 <= i <= |entries|
      invariant parts + SaveParts(entries[i..]) == SaveParts(entries)
    {
      ghost var before := parts;
      SavePartsStep(entries, i);
      parts := AppendEntry(parts, entries[i]);
      Regroup(before, Emit(entries[i]), SaveParts(entries[i + 1..]));
      i := i + 1;
    }
    assert entries[i..] == [];
  }

  /** The label beside an image input: the last path segment of a stored
      URL; nothing for a new file, `null` or an empty text. */
  function CurrentFileName(v: Value): (r: Option<string>)
    ensures r.Some? <==> v.Str? && v.s != ""
    ensures r.Some? ==> '/' !in r.value && IsSuffixOf(r.value, v.s)
  {
    if v.Str? && Truthy(v.s) then
      LastSegmentIsSuffix(v.s, '/');
      Some(LastSegment(v.s, '/'))
    else None
  }

  // ---------------------------------------------------------------------
  // The page
  // ---------------------------------------------------------------------

  class Page {
    var settings: seq<Entry>
    var loading: bool
    var saving: bool
    var error: Option<string>
    var successMessage: Option<string>

    constructor()
      ensures settings == DefaultSettings && loading && !saving
      ensures error.None? && successMessage.None?
    {
      settings, loading, saving := DefaultSettings, true, false;
      error, successMessage := None, None;
    }

    /** `fetchSettings`: the server's object replaces the settings; a failure
        shows the server's `error` text or the fallback. */
    method FetchSettings(reply: Reply<seq<Entry>>)
      modifies this`settings, this`loading, this`error
      ensures !loading
      ensures reply.Ok? ==> settings == reply.data && error.None?
      ensures reply.Err? ==> settings == old(settings) && error == Some(OrElse(reply.message, FetchFailed))
    {
      loading := true;
      error := None;
      match reply {
        case Ok(s) => settings := s;
        case Err(_, message) => error := Some(OrElse(message, FetchFailed));
      }
      loading := false;
    }

    method HandleSettingsChange(field: string, value: Value)
      modifies this`settings
      ensures settings == Put(old(settings), field, value)
    {
      settings := Put(settings, field, value);
    }

    /** `handleFileUpload`: the chosen file, or `null` when none is chosen. */
    method HandleFileUpload(field: string, file: Option<File>)
      modifies this`settings
      ensures settings == Put(old(settings), field, if file.Some? then Attached(file.value) else Null)
    {
      var value := if file.Some? then Attached(file.value) else Null;
      settings := Put(settings, field, value);
    }

    /** `saveSettings`, given the reply to the PUT; returns the body sent. */
    method SaveSettings(reply: Reply<seq<Entry>>) returns (sent: seq<Part>)
      modifies this`settings, this`saving, this`error, this`successMessage
      ensures sent == SaveParts(old(settings)) && !saving
      ensures reply.Ok? ==>
        settings == reply.data && successMessage == Some(SavedMessage) && error.None?
      ensures reply.Err? ==>
        settings == old(settings) && successMessage.None? &&
        error == Some(OrElse(reply.message, SaveFailed))
    {
      saving := true;
      error := None;
      successMessage := None;
      sent := BuildBody(settings);
      match reply {
        case Ok(s) =>
          settings := s;
          successMessage := Some(SavedMessage);
        case Err(_, message) =>
          error := Some(OrElse(message, SaveFailed));
      }
      saving := false;
    }
  }

  /** Saving settings in which no image has been chosen uploads nothing. */
  lemma NoChosenFileNoUpload(entries: seq<Entry>, p: Part)
    requires forall i :: 0 <= i < |entries| ==> !entries[i].value.Attached?
    requires p in SaveParts(entries)
    ensures p.Field?
  {
    SavePartsSpec(entries, p);
  }
}
