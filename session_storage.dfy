/**
 * The tab-scoped session store: `parseSession`, `getSession` (with the
 * one-shot migration from the legacy chat key) and `updateSession` (a
 * shallow merge). `sessionStorage` is a map from key to what `JSON.parse`
 * makes of the stored text. A store that throws is described by `Env`:
 * no `window` (server rendering), storage access refused altogether, or
 * `setItem` refused (quota).
 */
module SessionStorage {
  import opened Wrappers

  const SESSION_KEY: string := "kpw_session_v1"
  const LEGACY_CHAT_KEY: string := "kpw_chat_messages_v1"
  const CHAT_MESSAGES: string := "chatMessages"
  const BOUNCING_BLOCK_TITLES: string := "bouncingBlockTitles"

  datatype Json = JNull | JBool(b: bool) | JNum(n: real) | JStr(s: string) | JArr(items: seq<Json>) | JObj(fields: map<string, Json>)

  /** A stored text as `JSON.parse` sees it: empty, not JSON, or JSON for a value. */
  datatype Stored = EmptyText | Unparsable | JsonText(value: Json)

  /** A session object: its own keys and their values. */
  type Session = map<string, Json>

  /** A property of an update object: present with `undefined`, or with a value. */
  datatype Field = Undefined | Defined(value: Json)

  datatype Env = Env(hasWindow: bool, accessible: bool, writable: bool)

  // ---------------------------------------------------------------------
  // parseSession
  // ---------------------------------------------------------------------

  /** An object whose `role` and `content` are strings. */
  predicate IsMessage(m: Json) {
    m.JObj? && "role" in m.fields && m.fields["role"].JStr?
    && "content" in m.fields && m.fields["content"].JStr?
  }

  /** `.filter(...)` keeping the well-formed chat messages, in order. */
  function FilterMessages(xs: seq<Json>): (r: seq<Json>)
    ensures |r| <= |xs|
    ensures forall i :: 0 <= i < |r| ==> IsMessage(r[i]) && r[i] in xs
    ensures forall i :: 0 <= i < |xs| && IsMessage(xs[i]) ==> xs[i] in r
  {
    if xs == [] then [] else (if IsMessage(xs[0]) then [xs[0]] else []) + FilterMessages(xs[1..])
  }

  /** `.filter(...)` keeping the strings, in order. */
  function FilterStrings(xs: seq<Json>): (r: seq<Json>)
    ensures |r| <= |xs|
    ensures forall i :: 0 <= i < |r| ==> r[i].JStr? && r[i] in xs
    ensures forall i :: 0 <= i < |xs| && xs[i].JStr? ==> xs[i] in r
  {
    if xs == [] then [] else (if xs[0].JStr? then [xs[0]] else []) + FilterStrings(xs[1..])
  }

  /** Filtering distributes over concatenation, so it keeps the order of what it keeps. */
  lemma {:induction false} FilterMessagesAppend(a: seq<Json>, b: seq<Json>)
    ensures FilterMessages(a + b) == FilterMessages(a) + FilterMessages(b)
    decreases |a|
  {
    if a != [] {
      assert (a + b)[1..] == a[1..] + b;
      FilterMessagesAppend(a[1..], b);
    } else {
      assert a + b == b;
    }
  }

  lemma {:induction false} FilterStringsAppend(a: seq<Json>, b: seq<Json>)
    ensures FilterStrings(a + b) == FilterStrings(a) + FilterStrings(b)
    decreases |a|
  {
    if a != [] {
      assert (a + b)[1..] == a[1..] + b;
      FilterStringsAppend(a[1..], b);
    } else {
      assert a + b == b;
    }
  }

  lemma {:induction false} FilterMessagesKeepsMessages(xs: seq<Json>)
    requires forall i :: 0 <= i < |xs| ==> IsMessage(xs[i])
    ensures FilterMessages(xs) == xs
    decreases |xs|
  {
    if xs != [] {
      FilterMessagesKeepsMessages(xs[1..]);
    }
  }

  lemma {:induction false} FilterStringsKeepsStrings(xs: seq<Json>)
    requires forall i :: 0 <= i < |xs| ==> xs[i].JStr?
    ensures FilterStrings(xs) == xs
    decreases |xs|
  {
    if xs != [] {
      FilterStringsKeepsStrings(xs[1..]);
    }
  }

  predicate MessageArray(v: Json) {
    v.JArr? && forall i :: 0 <= i < |v.items| ==> IsMessage(v.items[i])
  }

  predicate StringArray(v: Json) {
    v.JArr? && forall i :: 0 <= i < |v.items| ==> v.items[i].JStr?
  }

  /** A session as the `Session` type describes it: only the two known keys,
      each holding an array of the right kind. */
  predicate WellFormed(s: Session) {
    && (forall k :: k in s ==> k == CHAT_MESSAGES || k == BOUNCING_BLOCK_TITLES)
    && (CHAT_MESSAGES in s ==> MessageArray(s[CHAT_MESSAGES]))
    && (BOUNCING_BLOCK_TITLES in s ==> StringArray(s[BOUNCING_BLOCK_TITLES]))
  }

  /** The session read from one object: each known key kept when it holds an
      array, filtered to the entries of the right kind. */
  function SessionOf(obj: map<string, Json>): (s: Session)
    ensures WellFormed(s)
    ensures CHAT_MESSAGES in s <==> CHAT_MESSAGES in obj && obj[CHAT_MESSAGES].JArr?
    ensures BOUNCING_BLOCK_TITLES in s <==> BOUNCING_BLOCK_TITLES in obj && obj[BOUNCING_BLOCK_TITLES].JArr?
    ensures CHAT_MESSAGES in s ==> s[CHAT_MESSAGES] == JArr(FilterMessages(obj[CHAT_MESSAGES].items))
    ensures BOUNCING_BLOCK_TITLES in s ==>
              s[BOUNCING_BLOCK_TITLES] == JArr(FilterStrings(obj[BOUNCING_BLOCK_TITLES].items))
  {
    var chat: Session :=
      if CHAT_MESSAGES in obj && obj[CHAT_MESSAGES].JArr?
      then map[CHAT_MESSAGES := JArr(FilterMessages(obj[CHAT_MESSAGES].items))] else map[];
    if BOUNCING_BLOCK_TITLES in obj && obj[BOUNCING_BLOCK_TITLES].JArr?
    then chat[BOUNCING_BLOCK_TITLES := JArr(FilterStrings(obj[BOUNCING_BLOCK_TITLES].items))]
    else chat
  }

  /** `parseSession(raw)`: `{}` for a missing or empty item, text that is not
      JSON, or JSON that is not an object; otherwise the object's session. */
  function ParseSession(raw: Option<Stored>): (s: Session)
    ensures WellFormed(s)
    ensures !(raw.Some? && raw.value.JsonText? && raw.value.value.JObj?) ==> s == map[]
    ensures raw.Some? && raw.value.JsonText? && raw.value.value.JObj? ==> s == SessionOf(raw.value.value.fields)
  {
    if raw.None? then map[]
    else match raw.value
      case JsonText(JObj(obj)) => SessionOf(obj)
      case _ => map[]
  }

  /** `JSON.stringify` of a session object, with `undefined` properties dropped. */
  function Stringify(next: map<string, Field>): Json {
    JObj(DefinedPart(next))
  }

  /** The properties of an object whose value is not `undefined`. */
  function DefinedPart(next: map<string, Field>): (s: Session)
    ensures forall k :: k in s <==> k in next && next[k].Defined?
    ensures forall k :: k in s ==> s[k] == next[k].value
  {
    map k | k in next && next[k].Defined? :: next[k].value
  }

  /** Reading back what was written: parsing the text of a well-formed
      session gives the same session. */
  lemma ParseStringified(s: Session)
    requires WellFormed(s)
    ensures ParseSession(Some(JsonText(JObj(s)))) == s
  {
    var r := ParseSession(Some(JsonText(JObj(s))));
    if CHAT_MESSAGES in s {
      FilterMessagesKeepsMessages(s[CHAT_MESSAGES].items);
    }
    if BOUNCING_BLOCK_TITLES in s {
      FilterStringsKeepsStrings(s[BOUNCING_BLOCK_TITLES].items);
    }
    assert r.Keys == s.Keys;
  }

  // ---------------------------------------------------------------------
  // getSession and updateSession
  // ---------------------------------------------------------------------

  /** `sessionStorage.getItem(key)` */
  function Lookup(items: map<string, Stored>, key: string): Option<Stored> {
    if key in items then Some(items[key]) else None
  }

  /** A stored item JavaScript reads as true: present and not the empty string. */
  predicate Present(raw: Option<Stored>) {
    raw.Some? && raw.value != EmptyText
  }

  /** The legacy item holds a JSON array. */
  predicate LegacyArray(items: map<string, Stored>) {
    var legacy := Lookup(items, LEGACY_CHAT_KEY);
    legacy.Some? && legacy.value.JsonText? && legacy.value.value.JArr?
  }

  /**
   * What `getSession()` returns and the storage it leaves. A present new
   * item is the only one read. Without it, a legacy array becomes the
   * session's `chatMessages` as it is (not filtered), is written under the
   * new key and removed under the old one; anything else gives `{}`. A
   * storage error anywhere gives `{}`, and the migration then writes nothing.
   */
  function ReadSession(items: map<string, Stored>, env: Env): (r: (Session, map<string, Stored>))
    ensures !env.hasWindow || !env.accessible ==> r == (map[], items)
    ensures env.hasWindow && env.accessible && Present(Lookup(items, SESSION_KEY)) ==>
              r == (ParseSession(Lookup(items, SESSION_KEY)), items)
    ensures r.1 != items ==>
              && env.hasWindow && env.accessible && env.writable
              && !Present(Lookup(items, SESSION_KEY)) && LegacyArray(items)
              && r.0 == map[CHAT_MESSAGES := items[LEGACY_CHAT_KEY].value]
              && r.1 == items[SESSION_KEY := JsonText(JObj(r.0))] - {LEGACY_CHAT_KEY}
    ensures r.0 != map[] ==> Present(Lookup(items, SESSION_KEY)) || LegacyArray(items)
    ensures env.hasWindow && env.accessible && !env.writable && !Present(Lookup(items, SESSION_KEY)) ==>
              r == (map[], items)
  {
    if !env.hasWindow || !env.accessible then (map[], items)
    else
      var raw := Lookup(items, SESSION_KEY);
      if Present(raw) then (ParseSession(raw), items)
      else if LegacyArray(items) then
        var session := map[CHAT_MESSAGES := items[LEGACY_CHAT_KEY].value];
        if !env.writable then (map[], items)
        else (session, items[SESSION_KEY := JsonText(JObj(session))] - {LEGACY_CHAT_KEY})
      else (map[], items)
  }

  /** `{ ...current, ...updates }` */
  function Merge(current: Session, updates: map<string, Field>): (next: map<string, Field>)
    ensures next.Keys == current.Keys + updates.Keys
    ensures forall k :: k in updates ==> next[k] == updates[k]
    ensures forall k :: k in current && k !in updates ==> next[k] == Defined(current[k])
  {
    (map k | k in current :: Defined(current[k])) + updates
  }

  /** The storage `updateSession(updates)` leaves. */
  function WriteSession(items: map<string, Stored>, env: Env, updates: map<string, Field>): (r: map<string, Stored>)
    ensures !env.hasWindow || !env.accessible ==> r == items
    ensures env.hasWindow && env.accessible && Merge(ReadSession(items, env).0, updates) == map[] ==>
              r == ReadSession(items, env).1 - {SESSION_KEY}
    ensures env.hasWindow && env.accessible && !env.writable && Merge(ReadSession(items, env).0, updates) != map[] ==>
              r == items
    ensures env.hasWindow && env.accessible && env.writable && Merge(ReadSession(items, env).0, updates) != map[] ==>
              r == ReadSession(items, env).1[SESSION_KEY := JsonText(JObj(DefinedPart(Merge(ReadSession(items, env).0, updates))))]
    ensures forall k :: k != SESSION_KEY && k != LEGACY_CHAT_KEY ==> (k in r <==> k in items)
    ensures forall k :: k != SESSION_KEY && k != LEGACY_CHAT_KEY && k in items ==> r[k] == items[k]
  {
    if !env.hasWindow || !env.accessible then items
    else
      var (current, items1) := ReadSession(items, env);
      var next := Merge(current, updates);
      if next == map[] then items1 - {SESSION_KEY}
      else if !env.writable then items1
      else items1[SESSION_KEY := JsonText(Stringify(next))]
  }

  /** Updates of the two known keys, each `undefined` or an array of the right kind. */
  predicate WellFormedUpdates(updates: map<string, Field>) {
    && (forall k :: k in updates ==> k == CHAT_MESSAGES || k == BOUNCING_BLOCK_TITLES)
    && (CHAT_MESSAGES in updates && updates[CHAT_MESSAGES].Defined? ==>
          MessageArray(updates[CHAT_MESSAGES].value))
    && (BOUNCING_BLOCK_TITLES in updates && updates[BOUNCING_BLOCK_TITLES].Defined? ==>
          StringArray(updates[BOUNCING_BLOCK_TITLES].value))
  }

  /**
   * Reading after a successful update gives the merge: each updated key's
   * new value (a key set to `undefined` disappears), every other key as it
   * was.
   */
  lemma ReadAfterWrite(items: map<string, Stored>, env: Env, updates: map<string, Field>)
    requires env == Env(true, true, true)
    requires WellFormed(ReadSession(items, env).0) && WellFormedUpdates(updates)
    requires Merge(ReadSession(items, env).0, updates) != map[]
    ensures ReadSession(WriteSession(items, env, updates), env).0
         == DefinedPart(Merge(ReadSession(items, env).0, updates))
  {
    var next := Merge(ReadSession(items, env).0, updates);
    var s := DefinedPart(next);
    assert WellFormed(s);
    ParseStringified(s);
    var after := WriteSession(items, env, updates);
    assert Lookup(after, SESSION_KEY) == Some(JsonText(JObj(s)));
  }

  /** After a migration, the next read takes the new item, and the messages
      it returns are the legacy ones filtered. */
  lemma ReadAfterMigration(items: map<string, Stored>, env: Env)
    requires env == Env(true, true, true)
    requires !Present(Lookup(items, SESSION_KEY)) && LegacyArray(items)
    ensures var (s, items1) := ReadSession(items, env);
            LEGACY_CHAT_KEY !in items1 &&
            ReadSession(items1, env).0
              == map[CHAT_MESSAGES := JArr(FilterMessages(items[LEGACY_CHAT_KEY].value.items))]
  {
    var (s, items1) := ReadSession(items, env);
    assert Lookup(items1, SESSION_KEY) == Some(JsonText(JObj(s)));
  }

  /** The browser's `sessionStorage` as seen by this module. */
  class BrowserSessionStore {
    const env: Env
    var items: map<string, Stored>

    constructor(env: Env, items: map<string, Stored>)
      ensures this.env == env && this.items == items
    {
      this.env := env;
      this.items := items;
    }

    /** `getSession()` */
    method GetSession() returns (s: Session)
      modifies this
      ensures (s, items) == ReadSession(old(items), env)
    {
      if !env.hasWindow || !env.accessible {
        return map[];
      }
      var raw := Lookup(items, SESSION_KEY);
      if Present(raw) {
        return ParseSession(raw);
      }
      var legacyRaw := Lookup(items, LEGACY_CHAT_KEY);
      if legacyRaw.Some? && legacyRaw.value.JsonText? && legacyRaw.value.value.JArr? {
        var session := map[CHAT_MESSAGES := legacyRaw.value.value];
        if !env.writable {
          return map[];
        }
        items := items[SESSION_KEY := JsonText(JObj(session))];
        items := items - {LEGACY_CHAT_KEY};
        return session;
      }
      return map[];
    }

    /** `updateSession(updates)` */
    method UpdateSession(updates: map<string, Field>)
      modifies this
      ensures items == WriteSession(old(items), env, updates)
    {
      if !env.hasWindow || !env.accessible {
        return;
      }
      var current := GetSession();
      var next := Merge(current, updates);
      if next == map[] {
        items := items - {SESSION_KEY};
      } else if env.writable {
        items := items[SESSION_KEY := JsonText(Stringify(next))];
      }
    }
  }
}
