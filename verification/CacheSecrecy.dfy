/** What encryption is for: while it is on, nothing that was cached lies in the open. */
module CacheSecrecy {
  import opened Domain
  import opened LocalCache
  import opened CacheTheorems

  predicate IsSealedUnder<T>(cell: Cell<T>, key: CacheKey) {
    cell.Sealed? && cell.key == key
  }

  /** Every payload is sealed under the key, every column that repeats one is blank, and the index is empty. A draft that looks
      sealed is taken to be. */
  ghost predicate IsSecret(s: Cache, key: CacheKey) {
    && s.key == Some(key) && s.search == map[]
    && (forall u :: u in s.users ==> IsSealedUnder(s.users[u].payload, key) && s.users[u].columns == UserColumns("", "", None, ""))
    && (forall c :: c in s.rooms ==> IsSealedUnder(s.rooms[c].payload, key) && s.rooms[c].name == "")
    && (forall id :: id in s.messages ==> IsSealedUnder(s.messages[id].payload, key))
    && (forall id :: id in s.outbox ==> IsSealedUnder(s.outbox[id].payload, key))
    && (forall c :: c in s.drafts ==> IsSealedUnder(s.drafts[c], key) || "enc:v1:" <= s.drafts[c].value)
    && (s.bootstrap.Some? ==> IsSealedUnder(s.bootstrap.value, key))
  }

  /** Every cell is in the clear, columns repeat their payloads, and the index has an entry for each text. */
  ghost predicate IsOpen(s: Cache) {
    && s.key.None?
    && (forall u :: u in s.users ==> s.users[u].payload.Clear? && s.users[u].columns == ColumnsOf(s.users[u].payload.value))
    && (forall c :: c in s.rooms ==> s.rooms[c].payload.Clear? && s.rooms[c].name == s.rooms[c].payload.value.name)
    && (forall id :: id in s.messages ==> s.messages[id].payload.Clear?)
    && (forall id :: id in s.outbox ==> s.outbox[id].payload.Clear?)
    && (forall c :: c in s.drafts ==> s.drafts[c].Clear?)
    && (s.bootstrap.Some? ==> s.bootstrap.value.Clear?)
    && (forall id :: id in s.search <==> id in s.messages && s.messages[id].payload.value.content.Text?)
  }

  lemma KeyedIsSecret(s: Cache)
    requires Inv(s) && s.key.Some?
    ensures IsSecret(s, s.key.value)
  {
    forall u | u in s.users
      ensures IsSealedUnder(s.users[u].payload, s.key.value) && s.users[u].columns == UserColumns("", "", None, "")
    {
      assert UserRowInv(s.users[u], s.key);
    }
    forall c | c in s.rooms ensures IsSealedUnder(s.rooms[c].payload, s.key.value) && s.rooms[c].name == "" {
      assert RoomRowInv(s.rooms[c], s.key);
    }
    forall id | id in s.messages ensures IsSealedUnder(s.messages[id].payload, s.key.value) {
      assert MessageRowInv(id, s.messages[id], s.key);
    }
    forall c | c in s.drafts ensures IsSealedUnder(s.drafts[c], s.key.value) || "enc:v1:" <= s.drafts[c].value {
      assert IsTextUnder(s.drafts[c], s.key);
    }
  }

  lemma UnkeyedIsOpen(s: Cache)
    requires Inv(s) && s.key.None?
    ensures IsOpen(s)
  {
    forall u | u in s.users ensures s.users[u].payload.Clear? && s.users[u].columns == ColumnsOf(s.users[u].payload.value) {
      assert UserRowInv(s.users[u], s.key);
    }
    forall c | c in s.rooms ensures s.rooms[c].payload.Clear? && s.rooms[c].name == s.rooms[c].payload.value.name {
      assert RoomRowInv(s.rooms[c], s.key);
    }
    forall id | id in s.messages ensures s.messages[id].payload.Clear? {
      assert MessageRowInv(id, s.messages[id], s.key);
    }
    forall c | c in s.drafts ensures s.drafts[c].Clear? {
      assert IsTextUnder(s.drafts[c], s.key);
    }
  }

  /** Turning encryption on always succeeds and seals everything, under the new key or the one already in use. */
  lemma EnablingSealsEverything(s: Cache, newKey: CacheKey)
    requires Inv(s)
    ensures LocalCache.Apply(s, SetEncryption(true, newKey)).Ok?
    ensures IsSecret(LocalCache.Apply(s, SetEncryption(true, newKey)).value, if s.key.Some? then s.key.value else newKey)
  {
    ToggleOpens(s, true, newKey);
    KeyedIsSecret(Step(s, SetEncryption(true, newKey)));
  }

  /** Turning it off succeeds unless a draft looks sealed, and then opens everything. */
  lemma DisablingOpensEverything(s: Cache, newKey: CacheKey)
    requires Inv(s)
    ensures LocalCache.Apply(s, SetEncryption(false, newKey)).Ok? <==>
              s.key.None? || forall c :: c in s.drafts ==> !("enc:v1:" <= s.drafts[c].value)
    ensures LocalCache.Apply(s, SetEncryption(false, newKey)).Ok? ==> IsOpen(LocalCache.Apply(s, SetEncryption(false, newKey)).value)
  {
    DecryptionSucceedsExactly(s);
    if LocalCache.Apply(s, SetEncryption(false, newKey)).Ok? {
      ToggleOpens(s, false, newKey);
      UnkeyedIsOpen(Step(s, SetEncryption(false, newKey)));
    }
  }

  /** A key stays until a change of encryption succeeds; no other write touches it. */
  lemma {:induction false} CachingKeepsKey(s: Cache, messages: seq<Message>)
    ensures CacheAll(s, messages).Ok? ==> CacheAll(s, messages).value.key == s.key
    decreases |messages|
  {
    if messages != [] && CacheMessage(s, messages[0]).Ok? {
      CachingKeepsKey(CacheMessage(s, messages[0]).value, messages[1..]);
    }
  }

  lemma WritesKeepKey(s: Cache, op: Op)
    requires !op.SetEncryption?
    ensures Step(s, op).key == s.key
  {
    match op {
      case CacheMessages(messages) => CachingKeepsKey(s, messages);
      case _ =>
    }
  }

  /** The key that the changes of encryption along a run leave: that of the last one to turn it on, unless one turned it off
      since. */
  ghost function KeyAfter(s: Cache, ops: seq<Op>, key: Option<CacheKey>): Option<CacheKey>
    decreases |ops|
  {
    if ops == [] then key
    else
      var next := if !ops[0].SetEncryption? || LocalCache.Apply(s, ops[0]).Err? then key
                  else if !ops[0].enabled then None
                  else if key.Some? then key
                  else Some(ops[0].newKey);
      KeyAfter(Step(s, ops[0]), ops[1..], next)
  }

  lemma StepChangesKey(s: Cache, op: Op)
    requires Inv(s) && op.SetEncryption?
    ensures Step(s, op).key == if LocalCache.Apply(s, op).Err? then s.key
                               else if !op.enabled then None
                               else if s.key.Some? then s.key
                               else Some(op.newKey)
  {
    if op.enabled {
      EnablingSealsEverything(s, op.newKey);
    } else {
      DisablingOpensEverything(s, op.newKey);
    }
  }

  lemma {:induction false} RunChangesKey(s: Cache, ops: seq<Op>)
    requires Inv(s) && Possible(s, ops)
    ensures Run(s, ops).key == KeyAfter(s, ops, s.key) && Inv(Run(s, ops))
    decreases |ops|
  {
    if ops != [] {
      if ops[0].SetEncryption? {
        StepChangesKey(s, ops[0]);
        ToggleOpens(s, ops[0].enabled, ops[0].newKey);
      } else {
        WritesKeepKey(s, ops[0]);
        WriteRefines(s, ops[0]);
      }
      RunChangesKey(Step(s, ops[0]), ops[1..]);
    }
  }

  /** While encryption is on, everything cached is sealed under its key, later writes included; while it is off, everything is
      in the clear. It is on exactly if the last change of it that succeeded turned it on. */
  lemma NothingLiesOpenWhileOn(ops: seq<Op>)
    requires Possible(NEW_CACHE, ops)
    ensures var s := Run(NEW_CACHE, ops);
            match KeyAfter(NEW_CACHE, ops, None)
            case Some(key) => IsSecret(s, key)
            case None => IsOpen(s)
  {
    NewCacheIsGood();
    RunChangesKey(NEW_CACHE, ops);
    var s := Run(NEW_CACHE, ops);
    if s.key.Some? {
      KeyedIsSecret(s);
    } else {
      UnkeyedIsOpen(s);
    }
  }
}
