/** The server's emoji catalogue (`backend/src/emojis.ts`): a fixed list of
    stock Twemoji images and a name-keyed map of custom uploads, kept in
    memory. The map is a list of entries in insertion order, as a JavaScript
    `Map` iterates; setting a name already present replaces its entry where
    it stands. */
module Emojis {
  import opened Common
  import Registry
  import Seqs

  datatype Emoji = Emoji(id: string, name: string, url: string, category: string, isCustom: bool)

  function EmojiName(e: Emoji): string {
    e.name
  }

  /** The Twemoji 14.0.2 72x72 image for a code point. */
  function Twemoji(code: string): string {
    "https://cdn.jsdelivr.net/gh/twitter/twemoji@14.0.2/assets/72x72/" + code + ".png"
  }

  /** A stock emoji: its id is its name, and it is not custom. */
  function Stock(name: string, code: string, category: string): Emoji {
    Emoji(name, name, Twemoji(code), category, false)
  }

  const DefaultEmojis: seq<Emoji> := [
    Stock("smile", "1f604", "smileys"),
    Stock("laughing", "1f606", "smileys"),
    Stock("heart_eyes", "1f60d", "smileys"),
    Stock("thinking", "1f914", "smileys"),
    Stock("cry", "1f622", "smileys"),
    Stock("rage", "1f621", "smileys"),
    Stock("cool", "1f60e", "smileys"),
    Stock("skull", "1f480", "smileys"),
    Stock("thumbsup", "1f44d", "gestures"),
    Stock("thumbsdown", "1f44e", "gestures"),
    Stock("clap", "1f44f", "gestures"),
    Stock("wave", "1f44b", "gestures"),
    Stock("ok_hand", "1f44c", "gestures"),
    Stock("pray", "1f64f", "gestures"),
    Stock("heart", "2764", "hearts"),
    Stock("heartbreak", "1f494", "hearts"),
    Stock("fire", "1f525", "symbols"),
    Stock("sparkles", "2728", "symbols"),
    Stock("star", "2b50", "symbols"),
    Stock("boom", "1f4a5", "symbols"),
    Stock("rocket", "1f680", "objects"),
    Stock("trophy", "1f3c6", "objects"),
    Stock("gift", "1f381", "objects"),
    Stock("tada", "1f389", "objects")
  ]

  /** The stock list has 24 entries, none of them custom, each with its
      name as id. */
  lemma DefaultEmojisShape()
    ensures |DefaultEmojis| == 24
    ensures forall i :: 0 <= i < |DefaultEmojis| ==> !DefaultEmojis[i].isCustom && DefaultEmojis[i].id == DefaultEmojis[i].name
  {
  }

  /** The module's state: the stock list and the custom map's entries,
      oldest first. */
  datatype Catalogue = Catalogue(defaults: seq<Emoji>, customs: seq<Emoji>)

  const Initial := Catalogue(DefaultEmojis, [])

  /** A map holds one entry per name. */
  predicate Valid(c: Catalogue) {
    Registry.UniqueKeys(c.customs, EmojiName)
  }

  /** `getAllEmojis`: the stock list followed by the custom entries. */
  function GetAllEmojis(c: Catalogue): (r: seq<Emoji>)
    ensures |r| == |c.defaults| + |c.customs|
    ensures r[..|c.defaults|] == c.defaults
    ensures r[|c.defaults|..] == c.customs
  {
    c.defaults + c.customs
  }

  /** `getEmojiByName`: a custom emoji under the name wins; otherwise the
      first stock emoji of that name, if any. */
  function GetEmojiByName(c: Catalogue, name: string): (r: Option<Emoji>)
    ensures r.Some? ==> r.value.name == name && r.value in GetAllEmojis(c)
    ensures r.None? <==> !Registry.HasKey(GetAllEmojis(c), EmojiName, name)
    ensures Registry.HasKey(c.customs, EmojiName, name) ==> r.Some? && r.value in c.customs
    ensures !Registry.HasKey(c.customs, EmojiName, name) ==>
      r == Registry.Lookup(c.defaults, EmojiName, name)
  {
    var custom := Registry.Lookup(c.customs, EmojiName, name);
    if custom.Some? then custom
    else
      var all := GetAllEmojis(c);
      assert forall i :: |c.defaults| <= i < |all| ==> all[i] == c.customs[i - |c.defaults|];
      assert forall i :: 0 <= i < |c.defaults| ==> all[i] == c.defaults[i];
      Registry.Lookup(c.defaults, EmojiName, name)
  }

  /** `addCustomEmoji`: set the entry under the emoji's name. */
  function AddCustomEmoji(c: Catalogue, e: Emoji): (r: Catalogue)
    ensures r.defaults == c.defaults
    ensures GetEmojiByName(r, e.name) == Some(e)
    ensures forall n :: n != e.name ==> GetEmojiByName(r, n) == GetEmojiByName(c, n)
    ensures Registry.HasKey(c.customs, EmojiName, e.name) ==>
      var i := Registry.FindIndex(c.customs, EmojiName, e.name);
      && |r.customs| == |c.customs|
      && r.customs[i] == e
      && forall j :: 0 <= j < |c.customs| && j != i ==> r.customs[j] == c.customs[j]
    ensures !Registry.HasKey(c.customs, EmojiName, e.name) ==> r.customs == c.customs + [e]
    ensures Valid(c) ==> Valid(r)
  {
    UpsertLookups(c, e);
    c.(customs := Registry.Upsert(c.customs, EmojiName, e))
  }

  /** How names resolve after the custom entries take an upsert of `e`. */
  lemma UpsertLookups(c: Catalogue, e: Emoji)
    ensures var r := c.(customs := Registry.Upsert(c.customs, EmojiName, e));
      && GetEmojiByName(r, e.name) == Some(e)
      && forall n :: n != e.name ==> GetEmojiByName(r, n) == GetEmojiByName(c, n)
  {
    var r := c.(customs := Registry.Upsert(c.customs, EmojiName, e));
    assert Registry.Lookup(r.customs, EmojiName, e.name) == Some(e);
    forall n | n != e.name
      ensures GetEmojiByName(r, n) == GetEmojiByName(c, n)
    {
      assert Registry.Lookup(r.customs, EmojiName, n) == Registry.Lookup(c.customs, EmojiName, n);
    }
  }

  datatype Deleted = Deleted(removed: bool, next: Catalogue)

  /** `deleteCustomEmoji`: drop the entry under the name, reporting whether
      there was one. */
  function DeleteCustomEmoji(c: Catalogue, name: string): (r: Deleted)
    ensures r.next.defaults == c.defaults
    ensures r.removed <==> Registry.HasKey(c.customs, EmojiName, name)
    ensures !Registry.HasKey(r.next.customs, EmojiName, name)
    ensures !r.removed ==> r.next == c
    ensures forall i :: 0 <= i < |r.next.customs| ==> r.next.customs[i] in c.customs
    ensures Seqs.Subsequence(r.next.customs, c.customs)
    ensures forall i :: 0 <= i < |c.customs| ==>
      multiset(r.next.customs)[c.customs[i]] == if c.customs[i].name == name then 0 else multiset(c.customs)[c.customs[i]]
    ensures Valid(c) ==> Valid(r.next)
  {
    Deleted(Registry.HasKey(c.customs, EmojiName, name), c.(customs := Registry.RemoveKey(c.customs, EmojiName, name)))
  }

  /** After adding, the name finds the new emoji, even over a stock emoji of
      the same name; adding again under that name replaces it in place. */
  lemma AddThenGet(c: Catalogue, e: Emoji, e2: Emoji)
    requires e2.name == e.name
    ensures GetEmojiByName(AddCustomEmoji(c, e), e.name) == Some(e)
    ensures GetEmojiByName(AddCustomEmoji(AddCustomEmoji(c, e), e2), e.name) == Some(e2)
    ensures |AddCustomEmoji(AddCustomEmoji(c, e), e2).customs| == |AddCustomEmoji(c, e).customs|
  {
    assert Registry.HasKey(AddCustomEmoji(c, e).customs, EmojiName, e.name);
  }

  /** After deleting, the name falls back to the stock list, and every
      other name finds what it found before. */
  lemma DeleteFallsBack(c: Catalogue, name: string)
    ensures GetEmojiByName(DeleteCustomEmoji(c, name).next, name) == Registry.Lookup(c.defaults, EmojiName, name)
    ensures forall n :: n != name ==>
      GetEmojiByName(DeleteCustomEmoji(c, name).next, n) == GetEmojiByName(c, n)
  {
    var after := DeleteCustomEmoji(c, name).next;
    forall n | n != name
      ensures GetEmojiByName(after, n) == GetEmojiByName(c, n)
    {
      Registry.LookupAfterRemove(c.customs, EmojiName, name, n);
    }
  }

  /** A stock emoji stays reachable by name while no custom emoji takes it:
      the first stock entry of that name is found. */
  lemma StockReachable(c: Catalogue, i: nat)
    requires i < |c.defaults|
    requires !Registry.HasKey(c.customs, EmojiName, c.defaults[i].name)
    ensures GetEmojiByName(c, c.defaults[i].name).Some?
    ensures GetEmojiByName(c, c.defaults[i].name).value in c.defaults
  {
    assert Registry.HasKey(c.defaults, EmojiName, c.defaults[i].name);
  }
}
