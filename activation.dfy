/**
 * The per-guild allow-list of channels. Both channel_manager.py and bot.py
 * keep a dictionary from guild id to a list of channel ids and update it the
 * same way: activation appends a channel that is not yet listed, creating
 * an empty list for a new guild first, and deactivation removes the first
 * occurrence of a listed channel. These functions give the new dictionary
 * as a function of the old one; the two stores' methods are proved to
 * follow them.
 */
module Activation {

  type GuildId = string
  type ChannelId = string

  /** guild id -> ordered list of activated channel ids */
  type ActiveMap = map<GuildId, seq<ChannelId>>

  /** The guild's list, or the empty list when the guild has no entry. */
  function Listed(m: ActiveMap, g: GuildId): seq<ChannelId>
  {
    if g in m then m[g] else []
  }

  predicate NoDuplicates(s: seq<ChannelId>)
  {
    forall i, j :: 0 <= i < j < |s| ==> s[i] != s[j]
  }

  /** Every guild's list is free of duplicates. */
  ghost predicate AllDistinct(m: ActiveMap)
  {
    forall g :: g in m ==> NoDuplicates(m[g])
  }

  /**
   * channel_manager.py's activity rule. A guild with no entry, or with an
   * empty list, has every channel active (open world); otherwise exactly
   * the listed channels are active (closed world).
   */
  predicate IsActive(m: ActiveMap, g: GuildId, c: ChannelId)
  {
    if g !in m then true
    else if m[g] == [] then true
    else c in m[g]
  }

  lemma IsActiveOpenWorld(m: ActiveMap, g: GuildId, c: ChannelId)
    ensures IsActive(m, g, c) <==> Listed(m, g) == [] || c in Listed(m, g)
  {
  }

  // ---------------------------------------------------------------------
  // list.remove
  // ---------------------------------------------------------------------

  /** Position of the first occurrence of `x`. */
  function IndexOf(s: seq<ChannelId>, x: ChannelId): (i: nat)
    requires x in s
    ensures i < |s| && s[i] == x && x !in s[..i]
  {
    if s[0] == x then 0
    else
      var k := IndexOf(s[1..], x);
      assert s[..k + 1] == [s[0]] + s[1..][..k];
      k + 1
  }

  /** Python's `list.remove(x)` on a list that holds `x`; the list itself if it does not. */
  function RemoveFirst(s: seq<ChannelId>, x: ChannelId): (r: seq<ChannelId>)
    ensures x !in s ==> r == s
    ensures x in s ==> r == s[..IndexOf(s, x)] + s[IndexOf(s, x) + 1..]
  {
    if s == [] then []
    else if s[0] == x then s[1..]
    else
      var rest := RemoveFirst(s[1..], x);
      if x in s[1..] then
        var k := IndexOf(s[1..], x);
        assert IndexOf(s, x) == k + 1;
        calc {
          [s[0]] + rest;
          [s[0]] + (s[1..][..k] + s[1..][k + 1..]);
          { assert s[..k + 1] == [s[0]] + s[1..][..k]; assert s[k + 2..] == s[1..][k + 1..]; }
          s[..k + 1] + s[k + 2..];
        }
        [s[0]] + rest
      else
        [s[0]] + rest
  }

  /** Cutting one entry out of a duplicate-free list leaves neither that entry nor a duplicate. */
  lemma SpliceDistinct(s: seq<ChannelId>, i: nat)
    requires NoDuplicates(s) && i < |s|
    ensures s[i] !in s[..i] + s[i + 1..]
    ensures NoDuplicates(s[..i] + s[i + 1..])
  {
    var r := s[..i] + s[i + 1..];
    forall k | 0 <= k < |r|
      ensures r[k] == s[if k < i then k else k + 1]
    {
    }
  }

  /** Removing from a duplicate-free list removes every occurrence and keeps the list duplicate-free. */
  lemma RemoveFirstDistinct(s: seq<ChannelId>, x: ChannelId)
    requires NoDuplicates(s)
    ensures x !in RemoveFirst(s, x)
    ensures NoDuplicates(RemoveFirst(s, x))
  {
    if x in s {
      SpliceDistinct(s, IndexOf(s, x));
    }
  }

  /** Removing the channel just appended gives back the list it was appended to. */
  lemma RemoveAppended(s: seq<ChannelId>, x: ChannelId)
    requires x !in s
    ensures RemoveFirst(s + [x], x) == s
  {
    assert IndexOf(s + [x], x) == |s|;
    assert (s + [x])[..|s|] == s;
  }

  // ---------------------------------------------------------------------
  // The three updates
  // ---------------------------------------------------------------------

  /**
   * Activation: create an empty list for an unknown guild, then append the
   * channel unless it is already listed.
   */
  function Activate(m: ActiveMap, g: GuildId, c: ChannelId): (r: ActiveMap)
    ensures g in r && c in r[g]
    ensures r.Keys == m.Keys + {g}
    ensures forall h :: h in m && h != g ==> r[h] == m[h]
    ensures c in Listed(m, g) ==> r == m
    ensures c !in Listed(m, g) ==> r[g] == Listed(m, g) + [c]
    ensures NoDuplicates(Listed(m, g)) ==> NoDuplicates(r[g])
  {
    var withGuild := if g in m then m else m[g := []];
    if c in withGuild[g] then withGuild
    else withGuild[g := withGuild[g] + [c]]
  }

  /** Deactivation: remove the channel when the guild exists and lists it; otherwise nothing. */
  function Deactivate(m: ActiveMap, g: GuildId, c: ChannelId): (r: ActiveMap)
    ensures r.Keys == m.Keys
    ensures forall h :: h in m && h != g ==> r[h] == m[h]
    ensures c !in Listed(m, g) ==> r == m
    ensures multiset(Listed(r, g)) == multiset(Listed(m, g)) - multiset{c}
  {
    if g in m && c in m[g] then
      var i := IndexOf(m[g], c);
      assert m[g] == m[g][..i] + [c] + m[g][i + 1..];
      m[g := RemoveFirst(m[g], c)]
    else m
  }

  /** The two cases of Deactivate, for callers that update the map in place. */
  lemma DeactivateCases(m: ActiveMap, g: GuildId, c: ChannelId)
    ensures g in m && c in m[g] ==> Deactivate(m, g, c) == m[g := RemoveFirst(m[g], c)]
    ensures !(g in m && c in m[g]) ==> Deactivate(m, g, c) == m
  {
  }

  /**
   * Reset: forget the guild's entry altogether. Both the activation map and
   * the settings map are reset this way.
   */
  function Reset<V>(m: map<GuildId, V>, g: GuildId): (r: map<GuildId, V>)
    ensures g !in r
    ensures r.Keys == m.Keys - {g}
    ensures forall h :: h in r ==> r[h] == m[h]
  {
    if g in m then m - {g} else m
  }

  // ---------------------------------------------------------------------
  // Properties
  // ---------------------------------------------------------------------

  /** After activation the channel is active, and activating again changes nothing. */
  lemma ActivateIdempotent(m: ActiveMap, g: GuildId, c: ChannelId)
    ensures IsActive(Activate(m, g, c), g, c)
    ensures Activate(Activate(m, g, c), g, c) == Activate(m, g, c)
  {
  }

  /**
   * The first activation in an open guild closes it: every other channel of
   * the guild stops being active.
   */
  lemma FirstActivationClosesGuild(m: ActiveMap, g: GuildId, c: ChannelId, other: ChannelId)
    requires Listed(m, g) == [] && other != c
    ensures IsActive(m, g, other)
    ensures !IsActive(Activate(m, g, c), g, other)
  {
    assert Activate(m, g, c)[g] == [c];
  }

  /** After deactivation in a duplicate-free list the channel is no longer listed. */
  lemma DeactivateUnlists(m: ActiveMap, g: GuildId, c: ChannelId)
    requires NoDuplicates(Listed(m, g))
    ensures c !in Listed(Deactivate(m, g, c), g)
    ensures NoDuplicates(Listed(Deactivate(m, g, c), g))
  {
    RemoveFirstDistinct(Listed(m, g), c);
  }

  /**
   * Deactivating the only listed channel empties the list, which reopens the
   * guild: every channel, the deactivated one included, is active again.
   */
  lemma DeactivateLastReopens(m: ActiveMap, g: GuildId, c: ChannelId, any: ChannelId)
    requires Listed(m, g) == [c]
    ensures !IsActive(m, g, any) <==> any != c
    ensures IsActive(Deactivate(m, g, c), g, any)
  {
    assert Deactivate(m, g, c)[g] == [];
  }

  /** Deactivating a channel just appended to the guild's list restores the list. */
  lemma DeactivateAppended(m: ActiveMap, g: GuildId, c: ChannelId)
    requires c !in Listed(m, g)
    ensures Deactivate(m[g := Listed(m, g) + [c]], g, c) == m[g := Listed(m, g)]
  {
    var before := Listed(m, g);
    var added := m[g := before + [c]];
    RemoveAppended(before, c);
    assert added[g := RemoveFirst(added[g], c)] == m[g := before];
  }

  /**
   * Activating a channel that was not listed and then deactivating it leaves
   * every channel's activity as it was. The map may keep an empty list for a
   * guild that had none.
   */
  lemma ActivateThenDeactivate(m: ActiveMap, g: GuildId, c: ChannelId)
    requires c !in Listed(m, g)
    ensures Deactivate(Activate(m, g, c), g, c) == m[g := Listed(m, g)]
    ensures forall h, d :: IsActive(Deactivate(Activate(m, g, c), g, c), h, d) == IsActive(m, h, d)
  {
    ActivateUnlisted(m, g, c);
    DeactivateAppended(m, g, c);
    forall h, d
      ensures IsActive(m[g := Listed(m, g)], h, d) == IsActive(m, h, d)
    {
      if h == g && g !in m {
        assert m[g := Listed(m, g)][g] == [];
      }
    }
  }

  /** Activating an unlisted channel appends it to the guild's list, created empty if needed. */
  lemma ActivateUnlisted(m: ActiveMap, g: GuildId, c: ChannelId)
    requires c !in Listed(m, g)
    ensures Activate(m, g, c) == m[g := Listed(m, g) + [c]]
  {
    if g !in m {
      assert m[g := []][g := [] + [c]] == m[g := Listed(m, g) + [c]];
    }
  }

  /** All three updates keep every guild's list free of duplicates. */
  lemma UpdatesKeepDistinct(m: ActiveMap, g: GuildId, c: ChannelId)
    requires AllDistinct(m)
    ensures AllDistinct(Activate(m, g, c))
    ensures AllDistinct(Deactivate(m, g, c))
    ensures AllDistinct(Reset(m, g))
  {
    var up := Activate(m, g, c);
    forall h | h in up
      ensures NoDuplicates(up[h])
    {
      if h != g {
        assert up[h] == m[h];
      }
    }
    DeactivateUnlists(m, g, c);
    var down := Deactivate(m, g, c);
    forall h | h in down
      ensures NoDuplicates(down[h])
    {
      if h != g {
        assert down[h] == m[h];
      } else {
        assert down[h] == Listed(down, g);
      }
    }
  }

  /** After a reset every channel of the guild is active, and a second reset changes nothing. */
  lemma ResetReopens(m: ActiveMap, g: GuildId, c: ChannelId)
    ensures IsActive(Reset(m, g), g, c)
    ensures Reset(Reset(m, g), g) == Reset(m, g)
  {
  }

  /** Activating an unlisted channel lengthens the list by one; deactivating a listed one shortens it by one. */
  lemma ListLengths(m: ActiveMap, g: GuildId, c: ChannelId)
    ensures c !in Listed(m, g) ==> |Activate(m, g, c)[g]| == |Listed(m, g)| + 1
    ensures c in Listed(m, g) ==> |Listed(Deactivate(m, g, c), g)| == |Listed(m, g)| - 1
  {
    if c in Listed(m, g) {
      var s := Listed(m, g);
      var i := IndexOf(s, c);
      assert |s[..i] + s[i + 1..]| == |s| - 1;
    }
  }

  // ---------------------------------------------------------------------
  // Listing
  // ---------------------------------------------------------------------

  /**
   * The listed channels the platform can still resolve to a channel
   * object, in list order. Both list commands show only these.
   */
  function Resolvable(listed: seq<ChannelId>, known: set<ChannelId>): (r: seq<ChannelId>)
    ensures |r| <= |listed|
    ensures forall x :: x in r <==> x in listed && x in known
  {
    if listed == [] then []
    else
      var last := listed[|listed| - 1];
      assert listed == listed[..|listed| - 1] + [last];
      Resolvable(listed[..|listed| - 1], known) + (if last in known then [last] else [])
  }

  /** One more list entry: the resolvable ones grow by that entry exactly when it resolves. */
  lemma ResolvableStep(listed: seq<ChannelId>, i: nat, known: set<ChannelId>)
    requires i < |listed|
    ensures Resolvable(listed[..i + 1], known)
      == Resolvable(listed[..i], known) + (if listed[i] in known then [listed[i]] else [])
  {
    assert listed[..i + 1][..i] == listed[..i];
  }
}
