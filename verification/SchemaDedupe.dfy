/** The schema steps that remove duplicate rows so that the unique indexes can be built. */
module SchemaDedupe {
  import opened Common
  import FiniteMaps

  // ---------------------------------------------------------------- the SQL the steps use

  datatype Value = Null | Int(n: int) | Text(s: string)

  type Record = map<string, Value>

  /** A table by its integer primary key. */
  type Rows = map<int, Record>

  /** A conjunction of `IS NOT NULL` and `IS NULL` tests. */
  datatype Scope = Scope(present: seq<string>, absent: seq<string>)

  const EVERYTHING := Scope([], [])

  datatype TableName = Messages | MeshcoreMessages

  datatype UniqueIndex = UniqueIndex(table: TableName, columns: seq<string>, scope: Scope)

  function Cell(r: Record, column: string): Value { if column in r then r[column] else Null }

  predicate Holds(scope: Scope, r: Record) {
    && (forall c <- scope.present :: Cell(r, c) != Null)
    && (forall c <- scope.absent :: Cell(r, c) == Null)
  }

  function Key(columns: seq<string>, r: Record): seq<Value> {
    seq(|columns|, i requires 0 <= i < |columns| => Cell(r, columns[i]))
  }

  /** `SELECT MIN(id) FROM t WHERE .. GROUP BY .. HAVING ..`; grouping takes NULLs as equal. */
  function LeastIds(rows: Rows, filter: Scope, columns: seq<string>, having: Scope): set<int> {
    set id <- rows.Keys |
      && Holds(filter, rows[id]) && Holds(having, rows[id])
      && forall other <- rows.Keys ::
        Holds(filter, rows[other]) && Key(columns, rows[other]) == Key(columns, rows[id]) ==> id <= other
  }

  /** `DELETE FROM t WHERE id NOT IN keep AND ..`. */
  function DeleteRows(rows: Rows, scope: Scope, keep: set<int>): Rows {
    map id <- rows.Keys | id in keep || !Holds(scope, rows[id]) :: rows[id]
  }

  /** Two rows share a group of the index. */
  predicate SameGroup(ix: UniqueIndex, r: Record, s: Record) {
    Holds(ix.scope, r) && Holds(ix.scope, s) && Key(ix.columns, r) == Key(ix.columns, s)
  }

  /** Two rows a unique index refuses: unlike grouping it takes NULLs as distinct. */
  predicate Conflict(ix: UniqueIndex, r: Record, s: Record) {
    SameGroup(ix, r, s) && Null !in Key(ix.columns, r)
  }

  predicate Buildable(ix: UniqueIndex, rows: Rows) {
    forall a <- rows.Keys, b <- rows.Keys :: a != b ==> !Conflict(ix, rows[a], rows[b])
  }

  // ---------------------------------------------------------------- the indexes and their steps

  const PACKET := UniqueIndex(Messages, ["sender_id", "packet_id"], Scope(["packet_id"], []))

  const REACTION := UniqueIndex(Messages, ["sender_id", "reply_id", "emoji"], Scope(["emoji", "reply_id"], []))

  const WITH_SENDER :=
    UniqueIndex(MeshcoreMessages, ["sender_id", "timestamp", "channel_idx", "payload"], Scope(["sender_id"], []))

  const NULL_SENDER := UniqueIndex(MeshcoreMessages, ["timestamp", "channel_idx", "payload"], Scope([], ["sender_id"]))

  const PACKET_NAME := "idx_msg_packet_dedup"
  const REACTION_NAME := "idx_reaction_dedup"
  const WITH_SENDER_NAME := "idx_mc_msg_dedup"
  const NULL_SENDER_NAME := "idx_mc_msg_dedup_null_sender"

  datatype State = State(messages: Option<Rows>, meshcore: Option<Rows>, indexes: map<string, UniqueIndex>)

  function TableOf(s: State, t: TableName): Option<Rows> { if t.Messages? then s.messages else s.meshcore }

  /** The statement of the packet step, which filters its groups with `HAVING`. */
  function DedupePackets(rows: Rows): Rows {
    DeleteRows(rows, PACKET.scope, LeastIds(rows, EVERYTHING, PACKET.columns, Scope(["packet_id"], [])))
  }

  /** The statement of the other steps, which filter the rows before grouping. */
  function Dedupe(ix: UniqueIndex, rows: Rows): Rows {
    DeleteRows(rows, ix.scope, LeastIds(rows, ix.scope, ix.columns, EVERYTHING))
  }

  /** The state after a step and whether it succeeded; a failure is the error that aborts the upgrade. */
  datatype Outcome = Outcome(state: State, ok: bool)

  /** `CREATE UNIQUE INDEX IF NOT EXISTS`. */
  function CreateIndex(s: State, name: string, ix: UniqueIndex): Outcome {
    if name in s.indexes then Outcome(s, true)
    else if TableOf(s, ix.table).None? || !Buildable(ix, TableOf(s, ix.table).value) then Outcome(s, false)
    else Outcome(s.(indexes := s.indexes[name := ix]), true)
  }

  function EnsurePacketDedup(s: State): Outcome {
    if PACKET_NAME in s.indexes || s.messages.None? then Outcome(s, true)
    else CreateIndex(s.(messages := Some(DedupePackets(s.messages.value))), PACKET_NAME, PACKET)
  }

  function EnsureReactionDedup(s: State): Outcome {
    if REACTION_NAME in s.indexes || s.messages.None? then Outcome(s, true)
    else CreateIndex(s.(messages := Some(Dedupe(REACTION, s.messages.value))), REACTION_NAME, REACTION)
  }

  function DedupeMeshcore(rows: Rows): Rows { Dedupe(NULL_SENDER, Dedupe(WITH_SENDER, rows)) }

  predicate MeshcoreIndexed(s: State) { WITH_SENDER_NAME in s.indexes && NULL_SENDER_NAME in s.indexes }

  function DropMeshcore(s: State): State { s.(indexes := s.indexes - {WITH_SENDER_NAME, NULL_SENDER_NAME}) }

  function EnsureMeshcoreDedup(s: State): Outcome {
    if MeshcoreIndexed(s) then Outcome(s, true)
    else
      var dropped := DropMeshcore(s);
      var cleaned := if s.meshcore.None? then dropped else dropped.(meshcore := Some(DedupeMeshcore(s.meshcore.value)));
      var first := CreateIndex(cleaned, WITH_SENDER_NAME, WITH_SENDER);
      if first.ok then CreateIndex(first.state, NULL_SENDER_NAME, NULL_SENDER) else first
  }

  /** The three steps in their order; the first failure ends the upgrade. */
  function Upgrade(s: State): Outcome {
    var packets := EnsurePacketDedup(s);
    if !packets.ok then packets
    else
      var reactions := EnsureReactionDedup(packets.state);
      if !reactions.ok then reactions else EnsureMeshcoreDedup(reactions.state)
  }

  /** What the database engine keeps true: every index is on an existing table that satisfies it. */
  predicate Enforced(s: State) {
    && (forall name <- s.indexes.Keys ::
         var t := TableOf(s, s.indexes[name].table); t.Some? && Buildable(s.indexes[name], t.value))
    && (forall name <- s.indexes.Keys :: name in [WITH_SENDER_NAME, NULL_SENDER_NAME] ==> s.indexes[name].table.MeshcoreMessages?)
  }

  // ---------------------------------------------------------------- one step

  /** The row has the least id of its group. */
  predicate Leads(ix: UniqueIndex, rows: Rows, id: int)
    requires id in rows
  {
    forall other <- rows.Keys :: SameGroup(ix, rows[id], rows[other]) ==> id <= other
  }

  /** A filter on grouped columns may stand before or after the grouping. */
  lemma HavingIsWhere(rows: Rows, columns: seq<string>, scope: Scope)
    requires forall c <- scope.present + scope.absent :: c in columns
    ensures LeastIds(rows, EVERYTHING, columns, scope) == LeastIds(rows, scope, columns, EVERYTHING)
  {
    forall a <- rows.Keys, b <- rows.Keys | Key(columns, rows[a]) == Key(columns, rows[b]) && Holds(scope, rows[a])
      ensures Holds(scope, rows[b])
    {
      forall c | c in columns ensures Cell(rows[a], c) == Cell(rows[b], c) {
        var i :| 0 <= i < |columns| && columns[i] == c;
        assert Key(columns, rows[a])[i] == Key(columns, rows[b])[i];
      }
      forall c | c in scope.present ensures Cell(rows[b], c) != Null { assert c in scope.present + scope.absent; }
      forall c | c in scope.absent ensures Cell(rows[b], c) == Null { assert c in scope.present + scope.absent; }
    }
  }

  lemma PacketsAreDeduped(rows: Rows)
    ensures DedupePackets(rows) == Dedupe(PACKET, rows)
  {
    HavingIsWhere(rows, PACKET.columns, PACKET.scope);
  }

  /** Exactly the rows outside the index and the leader of each group survive, unchanged. */
  lemma DedupeSurvivors(ix: UniqueIndex, rows: Rows)
    ensures forall id :: id in Dedupe(ix, rows) <==> id in rows && (Holds(ix.scope, rows[id]) ==> Leads(ix, rows, id))
    ensures forall id <- Dedupe(ix, rows).Keys :: Dedupe(ix, rows)[id] == rows[id]
  {
  }

  /** No two rows that a step leaves share a group, which is more than the index asks for. */
  lemma DedupeSeparates(ix: UniqueIndex, rows: Rows)
    ensures var out := Dedupe(ix, rows);
      forall a <- out.Keys, b <- out.Keys :: a != b ==> !SameGroup(ix, out[a], out[b])
    ensures Buildable(ix, Dedupe(ix, rows))
  {
    DedupeSurvivors(ix, rows);
  }

  function Group(ix: UniqueIndex, rows: Rows, id: int): set<int>
    requires id in rows
  {
    set other <- rows.Keys | SameGroup(ix, rows[id], rows[other])
  }

  lemma LeaderSurvives(ix: UniqueIndex, rows: Rows, id: int, leader: int)
    requires id in rows && leader in Group(ix, rows, id) && forall x <- Group(ix, rows, id) :: leader <= x
    ensures leader in Dedupe(ix, rows) && Dedupe(ix, rows)[leader] == rows[leader]
  {
    DedupeSurvivors(ix, rows);
    forall other | other in rows.Keys && SameGroup(ix, rows[leader], rows[other]) ensures leader <= other {
      assert other in Group(ix, rows, id);
    }
    assert Leads(ix, rows, leader);
  }

  /** No step loses a key of its own: each group keeps its row with the least id. */
  lemma KeysKept(ix: UniqueIndex, rows: Rows, id: int) returns (leader: int)
    requires id in rows && Holds(ix.scope, rows[id])
    ensures leader in Dedupe(ix, rows) && leader <= id
    ensures SameGroup(ix, rows[id], Dedupe(ix, rows)[leader])
    ensures forall other <- rows.Keys :: SameGroup(ix, rows[id], rows[other]) ==> leader <= other
  {
    assert id in Group(ix, rows, id);
    leader := FiniteMaps.LeastOf(Group(ix, rows, id));
    LeaderSurvives(ix, rows, id, leader);
  }

  /** Deleting rows keeps every uniqueness that already holds. */
  lemma DeletionKeeps(ix: UniqueIndex, rows: Rows, fewer: Rows)
    requires Buildable(ix, rows)
    requires fewer.Keys <= rows.Keys && forall id <- fewer.Keys :: fewer[id] == rows[id]
    ensures Buildable(ix, fewer)
  {
  }

  /** A step deletes nothing exactly when no two rows share a group. */
  lemma DedupeIdleIff(ix: UniqueIndex, rows: Rows)
    ensures Dedupe(ix, rows) == rows <==>
      forall a <- rows.Keys, b <- rows.Keys :: a != b ==> !SameGroup(ix, rows[a], rows[b])
  {
    DedupeSurvivors(ix, rows);
    if Dedupe(ix, rows) == rows {
      DedupeSeparates(ix, rows);
    }
    if forall a <- rows.Keys, b <- rows.Keys :: a != b ==> !SameGroup(ix, rows[a], rows[b]) {
      assert Dedupe(ix, rows).Keys == rows.Keys;
    }
  }

  /**
   * The step may delete rows the index would have accepted: on a table that already satisfies the index
   * it deletes something exactly when two rows share a group whose key holds a NULL.
   */
  lemma OverDeletesIff(ix: UniqueIndex, rows: Rows)
    requires Buildable(ix, rows)
    ensures Dedupe(ix, rows) != rows <==>
      exists a <- rows.Keys, b <- rows.Keys :: a != b && SameGroup(ix, rows[a], rows[b]) && Null in Key(ix.columns, rows[a])
  {
    DedupeIdleIff(ix, rows);
  }

  /** Two packets of an unknown sender with one packet id: the index accepts both, the step keeps one. */
  lemma OverDeletionWitness(r: Record)
    requires Cell(r, "packet_id") != Null && Cell(r, "sender_id") == Null
    ensures var rows: Rows := map[1 := r, 2 := r];
      Buildable(PACKET, rows) && DedupePackets(rows) != rows
  {
    var rows: Rows := map[1 := r, 2 := r];
    PacketGroup(r, r);
    PacketsAreDeduped(rows);
    assert Buildable(PACKET, rows);
    assert 1 in rows && 2 in rows && rows[1] == r && rows[2] == r;
    OverDeletesIff(PACKET, rows);
  }

  /** Keys agree if every column does, and hold a NULL if some column does. */
  lemma SameKeyIff(columns: seq<string>, r: Record, s: Record)
    ensures Key(columns, r) == Key(columns, s) <==> forall c <- columns :: Cell(r, c) == Cell(s, c)
    ensures Null in Key(columns, r) <==> exists c <- columns :: Cell(r, c) == Null
  {
    var k := Key(columns, r);
    forall i | 0 <= i < |columns| ensures k[i] == Cell(r, columns[i]) && Key(columns, s)[i] == Cell(s, columns[i]) {
    }
    if k == Key(columns, s) {
      forall c | c in columns ensures Cell(r, c) == Cell(s, c) {
        var i :| 0 <= i < |columns| && columns[i] == c;
        assert k[i] == Key(columns, s)[i];
      }
    }
    if c :| c in columns && Cell(r, c) == Null {
      var i :| 0 <= i < |columns| && columns[i] == c;
      assert k[i] == Null;
    }
  }

  predicate Agree(column: string, r: Record, s: Record) { Cell(r, column) == Cell(s, column) }

  /** Packets of one sender with one packet id. */
  lemma PacketGroup(r: Record, s: Record)
    ensures SameGroup(PACKET, r, s) <==>
      Cell(r, "packet_id") != Null && Agree("packet_id", r, s) && Agree("sender_id", r, s)
    ensures Null in Key(PACKET.columns, r) <==> Cell(r, "packet_id") == Null || Cell(r, "sender_id") == Null
  {
    SameKeyIff(PACKET.columns, r, s);
  }

  /** Reactions of one sender to one message with one emoji. */
  lemma ReactionGroup(r: Record, s: Record)
    ensures SameGroup(REACTION, r, s) <==>
      && Cell(r, "emoji") != Null && Cell(r, "reply_id") != Null
      && Agree("sender_id", r, s) && Agree("reply_id", r, s) && Agree("emoji", r, s)
    ensures Holds(REACTION.scope, r) && Null in Key(REACTION.columns, r) <==>
      Cell(r, "emoji") != Null && Cell(r, "reply_id") != Null && Cell(r, "sender_id") == Null
  {
    SameKeyIff(REACTION.columns, r, s);
  }

  /** MeshCore messages of one known sender with one time, channel and text. */
  lemma WithSenderGroup(r: Record, s: Record)
    ensures SameGroup(WITH_SENDER, r, s) <==>
      && Cell(r, "sender_id") != Null && Agree("sender_id", r, s)
      && Agree("timestamp", r, s) && Agree("channel_idx", r, s) && Agree("payload", r, s)
  {
    SameKeyIff(WITH_SENDER.columns, r, s);
  }

  /** MeshCore messages of unknown senders with one time, channel and text. */
  lemma NullSenderGroup(r: Record, s: Record)
    ensures SameGroup(NULL_SENDER, r, s) <==>
      && Cell(r, "sender_id") == Null && Cell(s, "sender_id") == Null
      && Agree("timestamp", r, s) && Agree("channel_idx", r, s) && Agree("payload", r, s)
  {
    SameKeyIff(NULL_SENDER.columns, r, s);
  }

  // ---------------------------------------------------------------- the steps together

  /** What the steps leave of `messages`, whichever of the two indexes existed before. */
  function CleanMessages(s: State): Option<Rows> {
    if s.messages.None? then None
    else
      var m := s.messages.value;
      var m := if PACKET_NAME in s.indexes then m else Dedupe(PACKET, m);
      Some(if REACTION_NAME in s.indexes then m else Dedupe(REACTION, m))
  }

  function CleanMeshcore(s: State): Option<Rows> {
    if s.meshcore.None? || MeshcoreIndexed(s) then s.meshcore else Some(DedupeMeshcore(s.meshcore.value))
  }

  function FinalIndexes(s: State): map<string, UniqueIndex> {
    var m := s.indexes;
    var m := if PACKET_NAME in m || s.messages.None? then m else m[PACKET_NAME := PACKET];
    var m := if REACTION_NAME in m || s.messages.None? then m else m[REACTION_NAME := REACTION];
    if MeshcoreIndexed(s) then m else m[WITH_SENDER_NAME := WITH_SENDER][NULL_SENDER_NAME := NULL_SENDER]
  }

  /** What a step on `messages` leaves when it succeeds. */
  function Deduped(s: State, name: string, ix: UniqueIndex): State {
    if name in s.indexes || s.messages.None? then s
    else s.(messages := Some(Dedupe(ix, s.messages.value)), indexes := s.indexes[name := ix])
  }

  lemma DedupedEnforced(s: State, name: string, ix: UniqueIndex)
    requires Enforced(s) && ix.table.Messages? && name !in [WITH_SENDER_NAME, NULL_SENDER_NAME]
    ensures Enforced(Deduped(s, name, ix))
    ensures s.messages.Some? ==> Buildable(ix, Dedupe(ix, s.messages.value))
  {
    if s.messages.Some? {
      DedupeSeparates(ix, s.messages.value);
      DedupeSurvivors(ix, s.messages.value);
    }
  }

  lemma PacketStep(s: State)
    requires Enforced(s)
    ensures EnsurePacketDedup(s) == Outcome(Deduped(s, PACKET_NAME, PACKET), true)
    ensures Enforced(Deduped(s, PACKET_NAME, PACKET))
  {
    DedupedEnforced(s, PACKET_NAME, PACKET);
    if s.messages.Some? { PacketsAreDeduped(s.messages.value); }
  }

  lemma ReactionStep(s: State)
    requires Enforced(s)
    ensures EnsureReactionDedup(s) == Outcome(Deduped(s, REACTION_NAME, REACTION), true)
    ensures Enforced(Deduped(s, REACTION_NAME, REACTION))
  {
    DedupedEnforced(s, REACTION_NAME, REACTION);
  }

  predicate HasSender(r: Record) { Cell(r, "sender_id") != Null }

  lemma SenderScopes(r: Record)
    ensures Holds(WITH_SENDER.scope, r) <==> HasSender(r)
    ensures Holds(NULL_SENDER.scope, r) <==> !HasSender(r)
  {
  }

  /** The first statement leaves the rows without a sender alone, so their groups are those of the table. */
  lemma NullSenderLeaders(rows: Rows, id: int)
    requires id in Dedupe(WITH_SENDER, rows) && !HasSender(rows[id])
    ensures Leads(NULL_SENDER, Dedupe(WITH_SENDER, rows), id) <==> Leads(NULL_SENDER, rows, id)
  {
    var once := Dedupe(WITH_SENDER, rows);
    DedupeSurvivors(WITH_SENDER, rows);
    forall other | other in rows && !HasSender(rows[other]) ensures other in once { SenderScopes(rows[other]); }
    forall other | other in rows && SameGroup(NULL_SENDER, rows[id], rows[other]) ensures other in once {
      SenderScopes(rows[other]);
    }
  }

  /** A message survives if it leads its group, with or without a sender. */
  predicate MeshcoreSurvivor(rows: Rows, id: int)
    requires id in rows
  {
    if HasSender(rows[id]) then Leads(WITH_SENDER, rows, id) else Leads(NULL_SENDER, rows, id)
  }

  lemma MeshcoreSurvives(rows: Rows, id: int)
    ensures id in DedupeMeshcore(rows) <==> id in rows && MeshcoreSurvivor(rows, id)
    ensures id in DedupeMeshcore(rows) ==> DedupeMeshcore(rows)[id] == rows[id]
  {
    var once := Dedupe(WITH_SENDER, rows);
    DedupeSurvivors(WITH_SENDER, rows);
    DedupeSurvivors(NULL_SENDER, once);
    if id in rows {
      SenderScopes(rows[id]);
      if id in once && !HasSender(rows[id]) { NullSenderLeaders(rows, id); }
    }
  }

  lemma MeshcoreClean(rows: Rows)
    ensures Buildable(WITH_SENDER, DedupeMeshcore(rows)) && Buildable(NULL_SENDER, DedupeMeshcore(rows))
  {
    var once := Dedupe(WITH_SENDER, rows);
    DedupeSeparates(WITH_SENDER, rows);
    DedupeSeparates(NULL_SENDER, once);
    DedupeSurvivors(NULL_SENDER, once);
    DeletionKeeps(WITH_SENDER, once, DedupeMeshcore(rows));
  }

  /** What the MeshCore step leaves when it succeeds. */
  function MeshcoreDeduped(s: State): State {
    if MeshcoreIndexed(s) then s
    else s.(meshcore := CleanMeshcore(s), indexes := s.indexes[WITH_SENDER_NAME := WITH_SENDER][NULL_SENDER_NAME := NULL_SENDER])
  }

  /** Dropping and rebuilding fails only for want of the table. */
  lemma MeshcoreStep(s: State)
    requires Enforced(s)
    ensures EnsureMeshcoreDedup(s).ok <==> s.meshcore.Some?
    ensures EnsureMeshcoreDedup(s).ok ==> EnsureMeshcoreDedup(s).state == MeshcoreDeduped(s) && Enforced(MeshcoreDeduped(s))
  {
    if !MeshcoreIndexed(s) && s.meshcore.Some? {
      MeshcoreClean(s.meshcore.value);
      assert DropMeshcore(s).indexes[WITH_SENDER_NAME := WITH_SENDER][NULL_SENDER_NAME := NULL_SENDER]
          == s.indexes[WITH_SENDER_NAME := WITH_SENDER][NULL_SENDER_NAME := NULL_SENDER];
    }
  }

  /**
   * With the engine's invariant the upgrade succeeds exactly when the MeshCore table exists, and then
   * leaves exactly the cleaned tables with all indexes enforced.
   */
  lemma UpgradeOutcome(s: State)
    requires Enforced(s)
    ensures Upgrade(s).ok <==> s.meshcore.Some?
    ensures Upgrade(s).ok ==>
      && Enforced(Upgrade(s).state)
      && Upgrade(s).state == State(CleanMessages(s), CleanMeshcore(s), FinalIndexes(s))
  {
    var s1 := Deduped(s, PACKET_NAME, PACKET);
    var s2 := Deduped(s1, REACTION_NAME, REACTION);
    PacketStep(s);
    ReactionStep(s1);
    MeshcoreStep(s2);
    FinalState(s);
  }

  lemma FinalState(s: State)
    ensures MeshcoreDeduped(Deduped(Deduped(s, PACKET_NAME, PACKET), REACTION_NAME, REACTION))
         == State(CleanMessages(s), CleanMeshcore(s), FinalIndexes(s))
  {
  }

  /** Running the upgrade again changes nothing. */
  lemma UpgradeIdempotent(s: State)
    requires Enforced(s) && Upgrade(s).ok
    ensures Upgrade(Upgrade(s).state) == Upgrade(s)
  {
    UpgradeOutcome(s);
    UpgradeOutcome(Upgrade(s).state);
  }

  /**
   * Only the names of the MeshCore indexes are looked at: they have the current columns afterwards
   * exactly when one of the names was missing or both already had them.
   */
  lemma MeshcoreCurrentIff(s: State, after: State)
    requires Enforced(s) && Upgrade(s) == Outcome(after, true)
    ensures WITH_SENDER_NAME in after.indexes && NULL_SENDER_NAME in after.indexes
    ensures after.indexes[WITH_SENDER_NAME] == WITH_SENDER && after.indexes[NULL_SENDER_NAME] == NULL_SENDER <==>
      (!MeshcoreIndexed(s) || (s.indexes[WITH_SENDER_NAME] == WITH_SENDER && s.indexes[NULL_SENDER_NAME] == NULL_SENDER))
  {
    UpgradeOutcome(s);
  }

  /** Which messages survive the upgrade, whichever of the indexes existed before. */
  lemma MessageSurvivesIff(s: State, after: State, rows: Rows, id: int)
    requires Enforced(s) && Upgrade(s) == Outcome(after, true) && s.messages == Some(rows) && id in rows
    ensures after.messages.Some? && (id in after.messages.value <==> MessageSurvivor(s.indexes.Keys, rows, id))
  {
    UpgradeOutcome(s);
    PacketsLeft(s.indexes.Keys, rows);
    DedupeSurvivors(REACTION, AfterPackets(s.indexes.Keys, rows));
  }

  /** The rows once the packet step is through, which does nothing if its index is there. */
  function AfterPackets(names: set<string>, rows: Rows): Rows {
    if PACKET_NAME in names then rows else Dedupe(PACKET, rows)
  }

  /** The packet step leaves a row if its index is there, the row has no packet id, or it leads its group. */
  predicate PacketSurvivor(names: set<string>, rows: Rows, id: int)
    requires id in rows
  {
    PACKET_NAME in names || (Holds(PACKET.scope, rows[id]) ==> Leads(PACKET, rows, id))
  }

  lemma PacketsLeft(names: set<string>, rows: Rows)
    ensures forall id :: id in AfterPackets(names, rows) <==> id in rows && PacketSurvivor(names, rows, id)
    ensures forall id <- AfterPackets(names, rows).Keys :: AfterPackets(names, rows)[id] == rows[id]
  {
    DedupeSurvivors(PACKET, rows);
  }

  /** It is left by the packet step and, unless that index is there, leads its reaction group among those. */
  predicate MessageSurvivor(names: set<string>, rows: Rows, id: int)
    requires id in rows
  {
    && PacketSurvivor(names, rows, id)
    && (REACTION_NAME in names || !Holds(REACTION.scope, rows[id])
        || forall other <- rows.Keys ::
             PacketSurvivor(names, rows, other) && SameGroup(REACTION, rows[id], rows[other]) ==> id <= other)
  }

  /** Some row has the reaction key of `r`. */
  predicate HasReaction(rows: Rows, r: Record) { exists id <- rows.Keys :: SameGroup(REACTION, r, rows[id]) }

  /**
   * A reaction can be lost to the packet step, even one that the older reaction index already enforced:
   * its key survives the upgrade exactly when some row with the key is left by the packet step.
   */
  lemma ReactionKeptIff(s: State, after: State, rows: Rows, id: int)
    requires Enforced(s) && Upgrade(s) == Outcome(after, true) && s.messages == Some(rows) && id in rows
    requires Holds(REACTION.scope, rows[id])
    ensures after.messages.Some?
    ensures HasReaction(after.messages.value, rows[id]) <==>
      exists r <- rows.Keys :: SameGroup(REACTION, rows[id], rows[r]) && PacketSurvivor(s.indexes.Keys, rows, r)
  {
    UpgradeOutcome(s);
    var once := AfterPackets(s.indexes.Keys, rows);
    PacketsLeft(s.indexes.Keys, rows);
    DedupeSurvivors(REACTION, once);
    if r :| r in rows && SameGroup(REACTION, rows[id], rows[r]) && PacketSurvivor(s.indexes.Keys, rows, r) {
      var leader := KeysKept(REACTION, once, r);
    }
  }

  /** A text and a reaction under one packet id: without the packet index the reaction's key is gone afterwards. */
  lemma ReactionLostWitness(text: Record, reaction: Record, indexes: map<string, UniqueIndex>, after: State)
    requires text == map["sender_id" := Int(1), "packet_id" := Int(7)]
    requires reaction == text["emoji" := Int(9)]["reply_id" := Int(3)]
    requires var s := State(Some(map[1 := text, 2 := reaction]), Some(map[]), indexes);
      Enforced(s) && PACKET_NAME !in indexes && Upgrade(s) == Outcome(after, true)
    ensures Holds(REACTION.scope, reaction) && after.messages.Some? && !HasReaction(after.messages.value, reaction)
  {
    var rows: Rows := map[1 := text, 2 := reaction];
    PacketGroup(reaction, text);
    assert !PacketSurvivor(indexes.Keys, rows, 2) by { assert SameGroup(PACKET, rows[2], rows[1]); }
    ReactionScope(text);
    ReactionScope(reaction);
    ReactionKeptIff(State(Some(rows), Some(map[]), indexes), after, rows, 2);
    assert forall r <- rows.Keys :: r == 1 || r == 2;
  }

  /** The case of a database that has the reaction index and not yet the packet index. */
  lemma EnforcedReactionLost(text: Record, reaction: Record) returns (s: State)
    requires text == map["sender_id" := Int(1), "packet_id" := Int(7)]
    requires reaction == text["emoji" := Int(9)]["reply_id" := Int(3)]
    ensures s == State(Some(map[1 := text, 2 := reaction]), Some(map[]), map[REACTION_NAME := REACTION])
    ensures Enforced(s) && Upgrade(s).ok && Upgrade(s).state.messages.Some?
    ensures !HasReaction(Upgrade(s).state.messages.value, reaction)
  {
    s := State(Some(map[1 := text, 2 := reaction]), Some(map[]), map[REACTION_NAME := REACTION]);
    ReactionScope(text);
    assert Buildable(REACTION, s.messages.value);
    assert Enforced(s);
    UpgradeOutcome(s);
    ReactionLostWitness(text, reaction, s.indexes, Upgrade(s).state);
  }

  lemma ReactionScope(r: Record)
    ensures Holds(REACTION.scope, r) <==> Cell(r, "emoji") != Null && Cell(r, "reply_id") != Null
  {
  }

  // ---------------------------------------------------------------- the database as an object

  class MessageStore {
    var messages: Option<Rows>
    var meshcore: Option<Rows>
    var indexes: map<string, UniqueIndex>

    ghost function View(): State
      reads this
    {
      State(messages, meshcore, indexes)
    }

    constructor (messages: Option<Rows>, meshcore: Option<Rows>, indexes: map<string, UniqueIndex>)
      ensures View() == State(messages, meshcore, indexes)
    {
      this.messages, this.meshcore, this.indexes := messages, meshcore, indexes;
    }

    method CreateUniqueIndex(name: string, ix: UniqueIndex) returns (ok: bool)
      modifies this`indexes
      ensures Outcome(View(), ok) == CreateIndex(old(View()), name, ix)
    {
      if name in indexes { return true; }
      var rows := if ix.table.Messages? then messages else meshcore;
      if rows.None? || !Buildable(ix, rows.value) { return false; }
      indexes := indexes[name := ix];
      return true;
    }

    method EnsureMessagesPacketDedup() returns (ok: bool)
      modifies this
      ensures Outcome(View(), ok) == EnsurePacketDedup(old(View()))
    {
      if PACKET_NAME in indexes || messages.None? { return true; }
      var keep := LeastIds(messages.value, EVERYTHING, ["sender_id", "packet_id"], Scope(["packet_id"], []));
      messages := Some(DeleteRows(messages.value, Scope(["packet_id"], []), keep));
      ok := CreateUniqueIndex(PACKET_NAME, PACKET);
    }

    method EnsureMessagesReactionDedup() returns (ok: bool)
      modifies this
      ensures Outcome(View(), ok) == EnsureReactionDedup(old(View()))
    {
      if REACTION_NAME in indexes || messages.None? { return true; }
      var scope := Scope(["emoji", "reply_id"], []);
      var keep := LeastIds(messages.value, scope, ["sender_id", "reply_id", "emoji"], EVERYTHING);
      messages := Some(DeleteRows(messages.value, scope, keep));
      ok := CreateUniqueIndex(REACTION_NAME, REACTION);
    }

    method EnsureMeshcoreMessagesDedupIndex() returns (ok: bool)
      modifies this
      ensures Outcome(View(), ok) == EnsureMeshcoreDedup(old(View()))
    {
      if WITH_SENDER_NAME in indexes && NULL_SENDER_NAME in indexes { return true; }
      indexes := indexes - {WITH_SENDER_NAME};
      indexes := indexes - {NULL_SENDER_NAME};
      assert indexes == old(indexes) - {WITH_SENDER_NAME, NULL_SENDER_NAME};
      if meshcore.Some? { DeleteMeshcoreDuplicates(); }
      ok := CreateUniqueIndex(WITH_SENDER_NAME, WITH_SENDER);
      if ok { ok := CreateUniqueIndex(NULL_SENDER_NAME, NULL_SENDER); }
    }

    method DeleteMeshcoreDuplicates()
      requires meshcore.Some?
      modifies this`meshcore
      ensures meshcore == Some(DedupeMeshcore(old(meshcore).value))
    {
      var known, unknown := Scope(["sender_id"], []), Scope([], ["sender_id"]);
      var rows := meshcore.value;
      rows := DeleteRows(rows, known, LeastIds(rows, known, ["sender_id", "timestamp", "channel_idx", "payload"], EVERYTHING));
      rows := DeleteRows(rows, unknown, LeastIds(rows, unknown, ["timestamp", "channel_idx", "payload"], EVERYTHING));
      meshcore := Some(rows);
    }

    method StructuralUpgrades() returns (ok: bool)
      modifies this
      ensures Outcome(View(), ok) == Upgrade(old(View()))
    {
      ok := EnsureMessagesPacketDedup();
      if ok { ok := EnsureMessagesReactionDedup(); }
      if ok { ok := EnsureMeshcoreMessagesDedupIndex(); }
    }
  }
}
