// Pure projections of the log shared by both session variants: the "cut"
// filter, the recent-participants list and the per-name message count.

module LogViews {
  import opened Text
  import opened ChatModel

  // ---------------------------------------------------------------------
  // The "cut" command: `log.filter(c => !c.message.match(/img/i))`

  function Cut(log: seq<Chat>): (r: seq<Chat>)
    ensures |r| <= |log|
    ensures forall c :: c in r <==> c in log && !MentionsImg(c.message)
  {
    if log == [] then []
    else (if MentionsImg(log[0].message) then [] else [log[0]]) + Cut(log[1..])
  }

  /** Cut works entry by entry and keeps the relative order: cutting a
      concatenation is concatenating the cuts. */
  lemma {:induction false} CutAppend(a: seq<Chat>, b: seq<Chat>)
    ensures Cut(a + b) == Cut(a) + Cut(b)
  {
    if a != [] {
      assert (a + b)[0] == a[0];
      assert (a + b)[1..] == a[1..] + b;
      CutAppend(a[1..], b);
    } else {
      assert a + b == b;
    }
  }

  /** Cutting twice removes nothing more. */
  lemma {:induction false} CutIdempotent(log: seq<Chat>)
    ensures Cut(Cut(log)) == Cut(log)
  {
    if log != [] {
      var head := if MentionsImg(log[0].message) then [] else [log[0]];
      CutAppend(head, Cut(log[1..]));
      CutIdempotent(log[1..]);
    }
  }

  /** Cut leaves the log as it is exactly when no message mentions img. */
  lemma {:induction false} CutUnchangedIff(log: seq<Chat>)
    ensures Cut(log) == log <==> forall c :: c in log ==> !MentionsImg(c.message)
  {
    if log != [] {
      CutUnchangedIff(log[1..]);
      if MentionsImg(log[0].message) {
        assert |Cut(log)| < |log|;
      } else {
        assert forall c :: c in log ==> c == log[0] || c in log[1..];
      }
    }
  }

  // ---------------------------------------------------------------------
  // Recent participants: entries with a name and a colour, not system
  // notices, at most five minutes old, folded into a Map keyed by name.

  const PresenceWindow: int := 5 * 60 * 1000

  predicate Qualifies(c: Chat, now: int) {
    c.name != "" && c.color != "" && !c.system && now - c.time <= PresenceWindow
  }

  function Recent(log: seq<Chat>, now: int): (r: seq<Chat>)
    ensures |r| <= |log|
    ensures forall c :: c in r <==> c in log && Qualifies(c, now)
  {
    if log == [] then []
    else (if Qualifies(log[0], now) then [log[0]] else []) + Recent(log[1..], now)
  }

  /** The filter works entry by entry and keeps the relative order of the
      qualifying entries. */
  lemma {:induction false} RecentAppend(a: seq<Chat>, b: seq<Chat>, now: int)
    ensures Recent(a + b, now) == Recent(a, now) + Recent(b, now)
  {
    if a != [] {
      assert (a + b)[0] == a[0];
      assert (a + b)[1..] == a[1..] + b;
      RecentAppend(a[1..], b, now);
    } else {
      assert a + b == b;
    }
  }

  function Seen(c: Chat): Participant {
    Participant(c.name, c.name, c.color)
  }

  function Names(ps: seq<Participant>): set<string> {
    set p | p in ps :: p.name
  }

  function NamesOf(entries: seq<Chat>): set<string> {
    set c | c in entries :: c.name
  }

  /** At most one participant per name, as with the keys of a Map. */
  predicate Distinct(ps: seq<Participant>) {
    forall i, j :: 0 <= i < j < |ps| ==> ps[i].name != ps[j].name
  }

  lemma NamesCons(p: Participant, ps: seq<Participant>)
    ensures Names([p] + ps) == {p.name} + Names(ps)
  {
    assert forall q :: q in [p] + ps <==> q == p || q in ps;
  }

  lemma DistinctCons(p: Participant, ps: seq<Participant>)
    ensures Distinct([p] + ps) <==> Distinct(ps) && p.name !in Names(ps)
  {
    var whole := [p] + ps;
    if Distinct(whole) {
      forall i, j | 0 <= i < j < |ps| ensures ps[i].name != ps[j].name {
        assert whole[i + 1] == ps[i] && whole[j + 1] == ps[j];
      }
      forall k | 0 <= k < |ps| ensures ps[k].name != p.name {
        assert whole[0] == p && whole[k + 1] == ps[k];
      }
      assert forall q :: q in ps ==> q.name != p.name;
    }
    if Distinct(ps) && p.name !in Names(ps) {
      forall i, j | 0 <= i < j < |whole| ensures whole[i].name != whole[j].name {
        if i == 0 {
          assert whole[0] == p && whole[j] == ps[j - 1] && ps[j - 1].name in Names(ps);
        } else {
          assert whole[i] == ps[i - 1] && whole[j] == ps[j - 1];
        }
      }
    }
  }

  /** `map.set(c.name, {id: c.name, name: c.name, color: c.color})`: replaces
      the value under an existing key in place, or adds the key at the end. */
  function Upsert(ps: seq<Participant>, c: Chat): (r: seq<Participant>)
    requires Distinct(ps)
    ensures Distinct(r)
    ensures Names(r) == Names(ps) + {c.name}
    ensures forall p :: p in r && p.name == c.name ==> p == Seen(c)
    ensures forall p :: p in r && p.name != c.name ==> p in ps
  {
    if ps == [] then
      NamesCons(Seen(c), []);
      DistinctCons(Seen(c), []);
      [Seen(c)]
    else
      var head, tail := ps[0], ps[1..];
      assert ps == [head] + tail;
      NamesCons(head, tail);
      DistinctCons(head, tail);
      if head.name == c.name then
        NamesCons(Seen(c), tail);
        DistinctCons(Seen(c), tail);
        [Seen(c)] + tail
      else
        var rest := Upsert(tail, c);
        NamesCons(head, rest);
        DistinctCons(head, rest);
        [head] + rest
  }

  /** Reference definition: the colour of the last entry in sequence order
      that carries `name`. */
  function LastColor(entries: seq<Chat>, name: string): Option<string> {
    if entries == [] then None
    else if entries[|entries| - 1].name == name then Some(entries[|entries| - 1].color)
    else LastColor(entries[..|entries| - 1], name)
  }

  /** LastColor names the colour of an entry with that name after which no
      entry has that name, and is None exactly when no entry has it. */
  lemma {:induction false} LastColorIsLast(entries: seq<Chat>, name: string)
    ensures LastColor(entries, name).None? <==> name !in NamesOf(entries)
    ensures LastColor(entries, name).Some? ==>
              exists k :: 0 <= k < |entries| && entries[k].name == name
                          && entries[k].color == LastColor(entries, name).value
                          && forall j :: k < j < |entries| ==> entries[j].name != name
  {
    if entries != [] {
      var n := |entries| - 1;
      var front := entries[..n];
      assert entries == front + [entries[n]];
      LastColorIsLast(front, name);
      assert NamesOf(entries) == NamesOf(front) + {entries[n].name};
      if entries[n].name != name && LastColor(front, name).Some? {
        var k :| 0 <= k < |front| && front[k].name == name
                 && front[k].color == LastColor(front, name).value
                 && forall j :: k < j < |front| ==> front[j].name != name;
        assert entries[k] == front[k];
      }
    }
  }

  /** The `reduce` into a Map, entries processed first to last: one
      participant per distinct name, its id the name, its colour that of the
      last entry with that name. */
  function Tally(entries: seq<Chat>): (r: seq<Participant>)
    ensures Distinct(r)
    ensures Names(r) == NamesOf(entries)
    ensures forall p :: p in r ==> p.id == p.name && LastColor(entries, p.name) == Some(p.color)
    decreases |entries|
  {
    if entries == [] then []
    else
      var n := |entries| - 1;
      var front := entries[..n];
      assert entries == front + [entries[n]];
      assert NamesOf(entries) == NamesOf(front) + {entries[n].name};
      Upsert(Tally(front), entries[n])
  }

  /** The participants shown beside the log at time `now`. */
  function Participants(log: seq<Chat>, now: int): (r: seq<Participant>)
    ensures Distinct(r)
    ensures forall p :: p in r ==> p.id == p.name
    ensures forall c :: c in log && Qualifies(c, now) ==> c.name in Names(r)
    ensures forall p :: p in r ==> LastColor(Recent(log, now), p.name) == Some(p.color)
  {
    Tally(Recent(log, now))
  }

  /** Every participant stands for a qualifying entry of the log that has its
      name and colour. */
  lemma ParticipantsComeFromRecentEntries(log: seq<Chat>, now: int, p: Participant)
    requires p in Participants(log, now)
    ensures exists c :: c in log && Qualifies(c, now) && c.name == p.name && c.color == p.color
  {
    var recent := Recent(log, now);
    LastColorIsLast(recent, p.name);
    var k :| 0 <= k < |recent| && recent[k].name == p.name && recent[k].color == p.color;
    assert recent[k] in recent;
  }

  /** Entries older than the window, system notices and entries with no name
      or colour never make a participant on their own. */
  lemma ParticipantsIgnoreOthers(log: seq<Chat>, now: int, name: string)
    requires forall c :: c in log && c.name == name ==> !Qualifies(c, now)
    ensures forall p :: p in Participants(log, now) ==> p.name != name
  {
    forall p | p in Participants(log, now)
      ensures p.name != name
    {
      ParticipantsComeFromRecentEntries(log, now, p);
    }
  }

  /** Two entries by Alice in the window collapse into one participant. The
      log is newest first and the Map keeps the value set last, so the colour
      is that of her older entry; Bob's entry is outside the window. */
  lemma ParticipantsExample()
    ensures Participants([Chat("2", "Alice", "blue", "hi", 390000, false, None),
                          Chat("1", "Alice", "red", "hello", 380000, false, None),
                          Chat("0", "Bob", "green", "yo", 0, false, None)], 400000)
            == [Participant("Alice", "Alice", "red")]
  {
    var blue := Chat("2", "Alice", "blue", "hi", 390000, false, None);
    var red := Chat("1", "Alice", "red", "hello", 380000, false, None);
    var bob := Chat("0", "Bob", "green", "yo", 0, false, None);
    var log := [blue, red, bob];
    assert log[1..] == [red, bob] && log[1..][1..] == [bob] && [bob][1..] == [];
    assert Recent([bob], 400000) == [];
    assert Recent(log, 400000) == [blue, red];
    assert [blue][..0] == [] && [blue, red][..1] == [blue];
    assert Tally([blue]) == [Seen(blue)];
    assert Tally([blue, red]) == Upsert([Seen(blue)], red);
  }

  // ---------------------------------------------------------------------
  // Ranking: `next.set(name, (next.get(name) ?? 0) + 1)` on a copy

  function Count(ranking: map<string, nat>, name: string): nat {
    if name in ranking then ranking[name] else 0
  }

  /** One more message for `name`; every other count is unchanged. */
  function Bump(ranking: map<string, nat>, name: string): (r: map<string, nat>)
    ensures r.Keys == ranking.Keys + {name}
    ensures Count(r, name) == Count(ranking, name) + 1
    ensures forall other :: other != name ==> Count(r, other) == Count(ranking, other)
  {
    ranking[name := Count(ranking, name) + 1]
  }
}
