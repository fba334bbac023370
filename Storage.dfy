/** The browser store of the chat synthesizer
    (src/utils/LocalStorageManager.ts): the API key, the model groups and the
    chat sessions, each under its own `localStorage` key.

    The JSON text under each key is abstracted to what reading it back gives:
    an `Entry` is absent, unparsable, or the parsed list. Writing a list and
    reading it back gives the same list, dates included. */
module Storage {
  import opened Wrappers
  import opened Strings
  import opened Types

  // ---------------------------------------------------------------------
  // Keyed list queries, for groups and sessions alike

  /** `xs.findIndex(x => key(x) === id)`: the first position whose key is
      `id`, or -1. */
  function FindIndex<T>(xs: seq<T>, key: T -> string, id: string): (r: int)
    ensures -1 <= r < |xs|
    ensures r >= 0 ==> key(xs[r]) == id
    ensures r >= 0 ==> forall j :: 0 <= j < r ==> key(xs[j]) != id
    ensures r == -1 <==> forall j :: 0 <= j < |xs| ==> key(xs[j]) != id
    decreases |xs|
  {
    if |xs| == 0 then -1
    else if key(xs[0]) == id then 0
    else
      var r := FindIndex(xs[1..], key, id);
      if r < 0 then -1 else r + 1
  }

  /** `xs.find(x => key(x) === id) || null`: the first element with key
      `id`. */
  function Find<T>(xs: seq<T>, key: T -> string, id: string): Option<T> {
    var i := FindIndex(xs, key, id);
    if i >= 0 then Some(xs[i]) else None
  }

  /** `Find` gives the first element with the key, and nothing exactly when
      no element has it. */
  lemma FindFirst<T>(xs: seq<T>, key: T -> string, id: string)
    ensures Find(xs, key, id).None? <==> forall j :: 0 <= j < |xs| ==> key(xs[j]) != id
    ensures Find(xs, key, id).Some? ==>
      exists i :: 0 <= i < |xs| && xs[i] == Find(xs, key, id).value && key(xs[i]) == id
        && forall j :: 0 <= j < i ==> key(xs[j]) != id
  {
  }

  /** Any position that matches with no match before it is the one
      `FindIndex` reports. */
  lemma FindIndexAt<T>(xs: seq<T>, key: T -> string, id: string, i: int)
    requires 0 <= i < |xs| && key(xs[i]) == id
    requires forall j :: 0 <= j < i ==> key(xs[j]) != id
    ensures FindIndex(xs, key, id) == i
  {
  }

  /** The body of `saveModelGroup` and `saveChatSession`: the first element
      with the same key is replaced by `stamped` (the new element with its
      refreshed `updatedAt`); without one, `x` is appended. */
  function Upsert<T>(xs: seq<T>, x: T, stamped: T, key: T -> string): seq<T> {
    var i := FindIndex(xs, key, key(x));
    if i >= 0 then xs[i := stamped] else xs + [x]
  }

  /** Replacing keeps the length and every other slot; appending adds one
      slot at the end. */
  lemma UpsertSlots<T>(xs: seq<T>, x: T, stamped: T, key: T -> string)
    ensures var i := FindIndex(xs, key, key(x)); var r := Upsert(xs, x, stamped, key);
      && (i >= 0 ==> |r| == |xs| && r[i] == stamped && forall j :: 0 <= j < |xs| && j != i ==> r[j] == xs[j])
      && (i < 0 ==> |r| == |xs| + 1 && r[..|xs|] == xs && r[|xs|] == x)
  {
    var r := Upsert(xs, x, stamped, key);
    if FindIndex(xs, key, key(x)) < 0 {
      assert r[..|xs|] == xs;
    }
  }

  /** After an upsert, looking the key up finds what was stored: the stamped
      element when one with that key existed, the new element otherwise. */
  lemma FindAfterUpsert<T>(xs: seq<T>, x: T, stamped: T, key: T -> string)
    requires key(stamped) == key(x)
    ensures Find(Upsert(xs, x, stamped, key), key, key(x))
      == Some(if FindIndex(xs, key, key(x)) >= 0 then stamped else x)
  {
    var i := FindIndex(xs, key, key(x));
    var r := Upsert(xs, x, stamped, key);
    if i >= 0 {
      FindIndexAt(r, key, key(x), i);
    } else {
      FindIndexAt(r, key, key(x), |xs|);
    }
  }

  /** An upsert does not change what any other key finds. */
  lemma UpsertKeepsOtherKeys<T>(xs: seq<T>, x: T, stamped: T, key: T -> string, other: string)
    requires key(stamped) == key(x) && other != key(x)
    ensures Find(Upsert(xs, x, stamped, key), key, other) == Find(xs, key, other)
  {
    var r := Upsert(xs, x, stamped, key);
    var k := FindIndex(xs, key, other);
    UpsertSlots(xs, x, stamped, key);
    if k >= 0 {
      FindIndexAt(r, key, other, k);
    } else {
      assert forall j :: 0 <= j < |r| ==> key(r[j]) != other by {
        forall j | 0 <= j < |r| ensures key(r[j]) != other {
          if j < |xs| && r[j] != stamped {
            assert r[j] == xs[j];
          }
        }
      }
    }
  }

  /** `xs.filter(x => key(x) !== id)`. */
  function RemoveAll<T>(xs: seq<T>, key: T -> string, id: string): (r: seq<T>)
    ensures |r| <= |xs|
    ensures forall k :: 0 <= k < |r| ==> key(r[k]) != id
    decreases |xs|
  {
    if |xs| == 0 then []
    else if key(xs[0]) == id then RemoveAll(xs[1..], key, id)
    else [xs[0]] + RemoveAll(xs[1..], key, id)
  }

  /** Removing shortens the list exactly when some element has the key, and
      leaves it as it was otherwise. */
  lemma {:induction false} RemoveAllShrinks<T>(xs: seq<T>, key: T -> string, id: string)
    ensures |RemoveAll(xs, key, id)| < |xs| <==> exists k :: 0 <= k < |xs| && key(xs[k]) == id
    ensures (forall k :: 0 <= k < |xs| ==> key(xs[k]) != id) ==> RemoveAll(xs, key, id) == xs
    decreases |xs|
  {
    if |xs| > 0 {
      RemoveAllShrinks(xs[1..], key, id);
      if key(xs[0]) != id && exists k :: 0 <= k < |xs| && key(xs[k]) == id {
        var k :| 0 <= k < |xs| && key(xs[k]) == id;
        assert xs[1..][k - 1] == xs[k];
      }
      if forall k :: 0 <= k < |xs| ==> key(xs[k]) != id {
        assert forall k :: 0 <= k < |xs| - 1 ==> key(xs[1..][k]) == key(xs[k + 1]);
        assert xs == [xs[0]] + xs[1..];
      }
    }
  }

  /** Removal keeps the other elements in their order: it distributes over
      concatenation. */
  lemma {:induction false} RemoveAllAppend<T>(a: seq<T>, b: seq<T>, key: T -> string, id: string)
    ensures RemoveAll(a + b, key, id) == RemoveAll(a, key, id) + RemoveAll(b, key, id)
    decreases |a|
  {
    if |a| == 0 {
      assert a + b == b;
    } else {
      assert (a + b)[1..] == a[1..] + b;
      RemoveAllAppend(a[1..], b, key, id);
    }
  }

  /** After removal the key finds nothing, and every other key finds what it
      found before. */
  lemma {:induction false} FindAfterRemove<T>(xs: seq<T>, key: T -> string, id: string, other: string)
    requires other != id
    ensures Find(RemoveAll(xs, key, id), key, id) == None
    ensures Find(RemoveAll(xs, key, id), key, other) == Find(xs, key, other)
    decreases |xs|
  {
    if |xs| > 0 {
      FindAfterRemove(xs[1..], key, id, other);
      var rest := RemoveAll(xs[1..], key, id);
      if key(xs[0]) != id {
        var r := [xs[0]] + rest;
        assert r[1..] == rest;
        if key(xs[0]) != other {
          var k := FindIndex(rest, key, other);
          if k >= 0 {
            FindIndexAt(r, key, other, k + 1);
          }
        }
      }
    }
  }

  /** `groups.some(g => g.title.toLowerCase() === title.toLowerCase() &&
      g.id !== excludeId)`; a missing `excludeId` excludes nothing. */
  predicate TitleTaken(groups: seq<AIModelGroup>, title: string, excludeId: Option<string>) {
    exists k :: 0 <= k < |groups| && Lower(groups[k].title) == Lower(title) && Some(groups[k].id) != excludeId
  }

  /** The check ignores case: a title and its lowered form clash with the
      same groups. */
  lemma TitleTakenIgnoresCase(groups: seq<AIModelGroup>, title: string, excludeId: Option<string>)
    ensures TitleTaken(groups, Lower(title), excludeId) == TitleTaken(groups, title, excludeId)
  {
    LowerIdempotent(title);
  }

  /** The key of a model group. */
  function GroupId(g: AIModelGroup): string {
    g.id
  }

  /** The key of a chat session. */
  function SessionId(s: ChatSession): string {
    s.id
  }

  /** What sits under one storage key: nothing, text that does not read back
      as a list, or a list. */
  datatype Entry<T> = Absent | Unparsable | Parsed(value: seq<T>)

  /** What `getModelGroups` and `getChatSessions` return for an entry: the
      list, or `[]` when it is missing or corrupt. */
  function Stored<T>(e: Entry<T>): (r: seq<T>)
    ensures e.Parsed? ==> r == e.value
    ensures !e.Parsed? ==> r == []
  {
    if e.Parsed? then e.value else []
  }

  /** `saveModelGroup`'s list: the stored copy of `group` gets `updatedAt`
      set to the current time `now` when it replaces an existing group. */
  function UpsertGroup(groups: seq<AIModelGroup>, group: AIModelGroup, now: Date): seq<AIModelGroup> {
    Upsert(groups, group, group.(updatedAt := now), GroupId)
  }

  /** `saveChatSession`'s list, likewise. */
  function UpsertSession(sessions: seq<ChatSession>, session: ChatSession, now: Date): seq<ChatSession> {
    Upsert(sessions, session, session.(updatedAt := now), SessionId)
  }

  /** What an imported backup holds, as far as `importData` looks: the
      `apiKey` property when it is a string, and each list property when it
      is an array. */
  datatype Backup = Backup(
    apiKey: Option<string>,
    modelGroups: Option<seq<AIModelGroup>>,
    chatSessions: Option<seq<ChatSession>>)

  // ---------------------------------------------------------------------
  // The store

  /** The three `localStorage` keys and their methods. The store's state is
      its three fields; each method reads, changes and writes them as the
      static method of the same name does. */
  class LocalStore {
    var apiKey: Option<string>
    var modelGroups: Entry<AIModelGroup>
    var chatSessions: Entry<ChatSession>

    /** The store as the page finds it. */
    constructor(apiKey: Option<string>, modelGroups: Entry<AIModelGroup>, chatSessions: Entry<ChatSession>)
      ensures this.apiKey == apiKey && this.modelGroups == modelGroups && this.chatSessions == chatSessions
    {
      this.apiKey := apiKey;
      this.modelGroups := modelGroups;
      this.chatSessions := chatSessions;
    }

    method SaveApiKey(key: string)
      modifies this
      ensures apiKey == Some(key)
      ensures modelGroups == old(modelGroups) && chatSessions == old(chatSessions)
    {
      apiKey := Some(key);
    }

    method GetApiKey() returns (key: Option<string>)
      ensures key == apiKey
    {
      key := apiKey;
    }

    method ClearApiKey()
      modifies this
      ensures apiKey == None
      ensures modelGroups == old(modelGroups) && chatSessions == old(chatSessions)
    {
      apiKey := None;
    }

    method SaveModelGroups(groups: seq<AIModelGroup>)
      modifies this
      ensures modelGroups == Parsed(groups)
      ensures apiKey == old(apiKey) && chatSessions == old(chatSessions)
    {
      modelGroups := Parsed(groups);
    }

    /** The stored groups, `[]` when the entry is missing or corrupt. */
    method GetModelGroups() returns (groups: seq<AIModelGroup>)
      ensures modelGroups.Parsed? ==> groups == modelGroups.value
      ensures !modelGroups.Parsed? ==> groups == []
    {
      match modelGroups {
        case Parsed(value) => groups := value;
        case _ => groups := [];
      }
    }

    /** The first stored group with this id, if any. */
    method GetModelGroup(id: string) returns (group: Option<AIModelGroup>)
      ensures group.None? <==> forall g :: g in Stored(modelGroups) ==> g.id != id
      ensures group.Some? ==> group.value in Stored(modelGroups) && group.value.id == id
      ensures group == Find(Stored(modelGroups), GroupId, id)
    {
      var groups := GetModelGroups();
      FindFirst(groups, GroupId, id);
      group := Find(groups, GroupId, id);
    }

    /** Replace the group with the same id in place, stamped with `now`, or
        append it; then write the list back. */
    method SaveModelGroup(group: AIModelGroup, now: Date)
      modifies this
      ensures modelGroups == Parsed(UpsertGroup(old(Stored(modelGroups)), group, now))
      ensures apiKey == old(apiKey) && chatSessions == old(chatSessions)
    {
      var groups := GetModelGroups();
      var existingIndex := FindIndex(groups, GroupId, group.id);
      if existingIndex >= 0 {
        groups := groups[existingIndex := group.(updatedAt := now)];
      } else {
        groups := groups + [group];
      }
      SaveModelGroups(groups);
    }

    /** Remove every group with this id; write back and report true only when
        one was removed. */
    method DeleteModelGroup(id: string) returns (deleted: bool)
      modifies this
      ensures deleted <==> exists k :: 0 <= k < |old(Stored(modelGroups))| && old(Stored(modelGroups))[k].id == id
      ensures deleted ==> modelGroups == Parsed(RemoveAll(old(Stored(modelGroups)), GroupId, id))
      ensures !deleted ==> modelGroups == old(modelGroups)
      ensures apiKey == old(apiKey) && chatSessions == old(chatSessions)
    {
      var groups := GetModelGroups();
      assert groups == Stored(modelGroups);
      var filteredGroups := RemoveAll(groups, GroupId, id);
      RemoveAllShrinks(groups, GroupId, id);
      assert (exists k :: 0 <= k < |groups| && GroupId(groups[k]) == id) <==> (exists k :: 0 <= k < |groups| && groups[k].id == id);
      if |filteredGroups| != |groups| {
        SaveModelGroups(filteredGroups);
        return true;
      }
      return false;
    }

    /** Whether another group already has this title, ignoring case. */
    method IsModelGroupTitleDuplicate(title: string, excludeId: Option<string>) returns (duplicate: bool)
      ensures duplicate <==> exists g :: g in Stored(modelGroups) && Lower(g.title) == Lower(title) && Some(g.id) != excludeId
    {
      var groups := GetModelGroups();
      duplicate := TitleTaken(groups, title, excludeId);
      assert forall g :: g in groups <==> exists k :: 0 <= k < |groups| && groups[k] == g;
    }

    method SaveChatSessions(sessions: seq<ChatSession>)
      modifies this
      ensures chatSessions == Parsed(sessions)
      ensures apiKey == old(apiKey) && modelGroups == old(modelGroups)
    {
      chatSessions := Parsed(sessions);
    }

    /** The stored sessions, `[]` when the entry is missing or corrupt. */
    method GetChatSessions() returns (sessions: seq<ChatSession>)
      ensures chatSessions.Parsed? ==> sessions == chatSessions.value
      ensures !chatSessions.Parsed? ==> sessions == []
    {
      match chatSessions {
        case Parsed(value) => sessions := value;
        case _ => sessions := [];
      }
    }

    /** The first stored session with this id, if any. */
    method GetChatSession(id: string) returns (session: Option<ChatSession>)
      ensures session.None? <==> forall s :: s in Stored(chatSessions) ==> s.id != id
      ensures session.Some? ==> session.value in Stored(chatSessions) && session.value.id == id
      ensures session == Find(Stored(chatSessions), SessionId, id)
    {
      var sessions := GetChatSessions();
      FindFirst(sessions, SessionId, id);
      session := Find(sessions, SessionId, id);
    }

    /** Replace the session with the same id in place, stamped with `now`, or
        append it; then write the list back. */
    method SaveChatSession(session: ChatSession, now: Date)
      modifies this
      ensures chatSessions == Parsed(UpsertSession(old(Stored(chatSessions)), session, now))
      ensures apiKey == old(apiKey) && modelGroups == old(modelGroups)
    {
      var sessions := GetChatSessions();
      var existingIndex := FindIndex(sessions, SessionId, session.id);
      if existingIndex >= 0 {
        sessions := sessions[existingIndex := session.(updatedAt := now)];
      } else {
        sessions := sessions + [session];
      }
      SaveChatSessions(sessions);
    }

    /** Remove every session with this id; write back and report true only
        when one was removed. */
    method DeleteChatSession(id: string) returns (deleted: bool)
      modifies this
      ensures deleted <==> exists k :: 0 <= k < |old(Stored(chatSessions))| && old(Stored(chatSessions))[k].id == id
      ensures deleted ==> chatSessions == Parsed(RemoveAll(old(Stored(chatSessions)), SessionId, id))
      ensures !deleted ==> chatSessions == old(chatSessions)
      ensures apiKey == old(apiKey) && modelGroups == old(modelGroups)
    {
      var sessions := GetChatSessions();
      assert sessions == Stored(chatSessions);
      var filteredSessions := RemoveAll(sessions, SessionId, id);
      RemoveAllShrinks(sessions, SessionId, id);
      assert (exists k :: 0 <= k < |sessions| && SessionId(sessions[k]) == id) <==> (exists k :: 0 <= k < |sessions| && sessions[k].id == id);
      if |filteredSessions| != |sessions| {
        SaveChatSessions(filteredSessions);
        return true;
      }
      return false;
    }

    /** Remove all three keys. */
    method ClearAllData()
      modifies this
      ensures apiKey == None && modelGroups == Absent && chatSessions == Absent
    {
      apiKey := None;
      modelGroups := Absent;
      chatSessions := Absent;
    }

    /** Restore a backup. `parse` is `JSON.parse` followed by the property
        reads: None when the text does not parse or parses to `null`. A key
        is written only when it is a non-empty string, each list only when it
        is an array; the rest of the store stays as it was. */
    method ImportData(jsonData: string, parse: string -> Option<Backup>) returns (ok: bool)
      modifies this
      ensures ok <==> parse(jsonData).Some?
      ensures !ok ==> apiKey == old(apiKey) && modelGroups == old(modelGroups) && chatSessions == old(chatSessions)
      ensures ok ==> var data := parse(jsonData).value;
        && apiKey == (if data.apiKey.Some? && data.apiKey.value != "" then data.apiKey else old(apiKey))
        && modelGroups == (if data.modelGroups.Some? then Parsed(data.modelGroups.value) else old(modelGroups))
        && chatSessions == (if data.chatSessions.Some? then Parsed(data.chatSessions.value) else old(chatSessions))
    {
      match parse(jsonData) {
        case None =>
          return false;
        case Some(data) =>
          if data.apiKey.Some? && data.apiKey.value != "" {
            SaveApiKey(data.apiKey.value);
          }
          if data.modelGroups.Some? {
            SaveModelGroups(data.modelGroups.value);
          }
          if data.chatSessions.Some? {
            SaveChatSessions(data.chatSessions.value);
          }
          return true;
      }
    }
  }
}
