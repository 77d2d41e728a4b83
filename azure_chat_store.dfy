/**
 * The Azure Table chat store. Each chat key owns one partition of the chat
 * table, a message per row under a zero-padded row key, and one row of the
 * metadata table (in the store's metadata partition) that records the message
 * count and the last message's row key. Both tables are modelled as maps from
 * (PartitionKey, RowKey) to the stored entity.
 */
module AzureChatStore {
  import opened Wrappers
  import opened Text
  import opened LexOrder

  const DefaultChatTable := "ChatMessages"
  const DefaultMetadataTable := "ChatMetadata"

  /** A stored chat message (what `message.dict()` serialises). */
  datatype ChatMessage = ChatMessage(role: string, content: Option<string>)

  /** A chat key's metadata entity: `LastMessageRowKey` and `MessageCount`. */
  datatype Metadata = Metadata(lastMessageRowKey: string, messageCount: int)

  /** The exceptions the store lets through. */
  datatype StoreError =
    | ValueError(message: string)
    | ResourceNotFoundError
    | ResourceExistsError
    | TableTransactionError

  /** A table: entities by (PartitionKey, RowKey). */
  type Table<V> = map<(string, string), V>

  // ---------------------------------------------------------------------------
  // Row keys

  /** `_to_row_key(idx)`: `f"{idx:010}"`. */
  function RowKey(idx: int): (r: string)
    ensures |r| >= 10
  {
    FormatZeroPadded(idx, 10)
  }

  const MaxMessages: nat := Pow10(10)

  /** `int(_to_row_key(idx)) == idx`. */
  lemma RowKeyParses(idx: int)
    ensures ParseInt(RowKey(idx)) == Some(idx)
  {
    ParseIntOfZeroPadded(idx, 10);
  }

  lemma RowKeyInjective(i: int, j: int)
    requires RowKey(i) == RowKey(j)
    ensures i == j
  {
    FormatZeroPaddedInjective(i, j, 10);
  }

  /** An empty chat's `LastMessageRowKey` after `set_messages`: the sign takes one of the ten places. */
  lemma RowKeyOfMinusOne()
    ensures RowKey(-1) == "-000000001"
  {
    assert Repeat('0', 8) == "00000000";
  }

  /** Below 10^10, row keys have ten digits and ordinal order is index order. */
  lemma RowKeysOrdered(i: nat, j: nat)
    requires i < j < MaxMessages
    ensures |RowKey(i)| == 10 && LexLt(RowKey(i), RowKey(j))
  {
    ZeroPadIsFixedDigits(i, 10);
    ZeroPadIsFixedDigits(j, 10);
    FixedDigitsOrdered(i, j, 10);
  }

  /** `_get_default_metadata(key)`: no messages yet, and the first row key as the last one. */
  function DefaultMetadata(): (r: Metadata)
    ensures r.messageCount == 0
    ensures r.lastMessageRowKey == RowKey(0) == "0000000000"
  {
    Metadata(RowKey(0), 0)
  }

  // ---------------------------------------------------------------------------
  // Partitions

  /** The entities of one partition. */
  function Partition<V>(t: Table<V>, key: string): (r: Table<V>)
    ensures forall p :: p in r <==> p in t && p.0 == key
  {
    map p | p in t && p.0 == key :: t[p]
  }

  /** Everything outside one partition. */
  function OtherPartitions<V>(t: Table<V>, key: string): (r: Table<V>)
    ensures forall p :: p in r <==> p in t && p.0 != key
  {
    map p | p in t && p.0 != key :: t[p]
  }

  /** The row keys of one partition. */
  function RowKeysOf<V>(t: Table<V>, key: string): (s: set<string>)
    ensures forall k :: k in s <==> (key, k) in t
  {
    var s := set p | p in t && p.0 == key :: p.1;
    assert forall k :: (key, k) in t ==> (key, k).1 in s;
    s
  }

  /** The rows `set_messages` creates: message `i` under row key `i`. */
  function Rows(key: string, msgs: seq<ChatMessage>): Table<ChatMessage>
  {
    if msgs == [] then map[] else Rows(key, msgs[..|msgs| - 1])[(key, RowKey(|msgs| - 1)) := msgs[|msgs| - 1]]
  }

  lemma {:induction false} RowsContents(key: string, msgs: seq<ChatMessage>)
    ensures forall p :: p in Rows(key, msgs) ==> p.0 == key
    ensures forall i :: 0 <= i < |msgs| ==> (key, RowKey(i)) in Rows(key, msgs) && Rows(key, msgs)[(key, RowKey(i))] == msgs[i]
    ensures forall i :: (key, RowKey(i)) in Rows(key, msgs) ==> 0 <= i < |msgs|
  {
    if msgs != [] {
      var n := |msgs| - 1;
      RowsContents(key, msgs[..n]);
      forall i | (key, RowKey(i)) in Rows(key, msgs) ensures 0 <= i < |msgs| {
        if RowKey(i) == RowKey(n) { RowKeyInjective(i, n); }
      }
      forall i | 0 <= i < n ensures Rows(key, msgs)[(key, RowKey(i))] == msgs[i] {
        if RowKey(i) == RowKey(n) { RowKeyInjective(i, n); }
      }
    }
  }

  /** The messages of a partition in row-key order, as a query returns them. */
  function MessagesAt(t: Table<ChatMessage>, key: string, ks: seq<string>): (r: seq<ChatMessage>)
    requires forall k :: k in ks ==> (key, k) in t
    ensures |r| == |ks| && forall i :: 0 <= i < |ks| ==> r[i] == t[(key, ks[i])]
  {
    if ks == [] then [] else [t[(key, ks[0])]] + MessagesAt(t, key, ks[1..])
  }

  /**
   * What `get_messages(key)` returns: the partition's messages, least row key
   * first, one per row and every row's message among them.
   */
  ghost function MessagesIn(t: Table<ChatMessage>, key: string): (r: seq<ChatMessage>)
    ensures |r| == |RowKeysOf(t, key)|
    ensures forall k :: (key, k) in t ==> t[(key, k)] in r
  {
    var s := RowKeysOf(t, key);
    SortedOfSorted(s);
    var ks := SortedOf(s);
    assert forall k :: k in ks ==> k in Elems(ks);
    var r := MessagesAt(t, key, ks);
    forall k | (key, k) in t ensures t[(key, k)] in r {
      assert k in Elems(ks);
      MessageAtRow(t, key, ks, k);
    }
    r
  }

  lemma MessageAtRow(t: Table<ChatMessage>, key: string, ks: seq<string>, k: string)
    requires forall k :: k in ks ==> (key, k) in t
    requires k in ks
    ensures t[(key, k)] in MessagesAt(t, key, ks)
  {
    var i :| 0 <= i < |ks| && ks[i] == k;
    assert MessagesAt(t, key, ks)[i] == t[(key, k)];
  }

  /** The messages under the row keys `ks` of the partition `key`, read one row at a time. */
  method ReadRows(t: Table<ChatMessage>, key: string, ks: seq<string>) returns (messages: seq<ChatMessage>)
    requires forall k :: k in ks ==> (key, k) in t
    ensures messages == MessagesAt(t, key, ks)
  {
    messages := [];
    for i := 0 to |ks|
      invariant |messages| == i && forall j :: 0 <= j < i ==> messages[j] == t[(key, ks[j])]
    {
      messages := messages + [t[(key, ks[i])]];
    }
  }

  /** The row keys 0..n-1, in order. */
  function RowKeySeq(n: nat): (r: seq<string>)
    ensures |r| == n && forall i :: 0 <= i < n ==> r[i] == RowKey(i)
  {
    seq(n, i requires 0 <= i < n => RowKey(i))
  }

  /**
   * Reading back rows written by `set_messages` gives the messages in their
   * original order, as long as the row keys keep ten digits.
   */
  lemma RowKeySeqSorted(n: nat)
    requires n <= MaxMessages
    ensures StrictlySorted(RowKeySeq(n))
  {
    var ks := RowKeySeq(n);
    forall i, j | 0 <= i < j < n ensures LexLt(ks[i], ks[j]) {
      RowKeysOrdered(i, j);
    }
  }

  lemma RowKeysOfRows(t: Table<ChatMessage>, key: string, msgs: seq<ChatMessage>)
    requires Partition(t, key) == Rows(key, msgs)
    ensures RowKeysOf(t, key) == Elems(RowKeySeq(|msgs|))
  {
    var ks := RowKeySeq(|msgs|);
    var s := RowKeysOf(t, key);
    RowsContents(key, msgs);
    forall k | k in s ensures k in ks {
      assert (key, k) in Partition(t, key);
      var i :| 0 <= i < |msgs| && (key, k) == (key, RowKey(i)) by {
        RowsKeyIndex(key, msgs, k);
      }
      assert ks[i] == k;
    }
    forall k | k in ks ensures k in s {
      var i :| 0 <= i < |msgs| && ks[i] == k;
      assert (key, RowKey(i)) in Partition(t, key);
    }
  }

  lemma {:induction false} RowsKeyIndex(key: string, msgs: seq<ChatMessage>, k: string)
    requires (key, k) in Rows(key, msgs)
    ensures exists i :: 0 <= i < |msgs| && (key, k) == (key, RowKey(i))
  {
    var n := |msgs| - 1;
    if k != RowKey(n) {
      RowsKeyIndex(key, msgs[..n], k);
    }
  }

  /**
   * Reading back rows written by `set_messages` gives the messages in their
   * original order, as long as the row keys keep ten digits.
   */
  lemma RowsReadBack(t: Table<ChatMessage>, key: string, msgs: seq<ChatMessage>)
    requires Partition(t, key) == Rows(key, msgs)
    requires |msgs| <= MaxMessages
    ensures MessagesIn(t, key) == msgs
  {
    var s := RowKeysOf(t, key);
    RowKeysOfRows(t, key, msgs);
    RowKeySeqSorted(|msgs|);
    SortedOfSorted(s);
    SortedUnique(SortedOf(s), RowKeySeq(|msgs|));
    RowsContents(key, msgs);
    assert forall i :: 0 <= i < |msgs| ==> t[(key, RowKey(i))] == Partition(t, key)[(key, RowKey(i))];
  }

  // ---------------------------------------------------------------------------
  // Consistency of a chat key

  /** `_get_or_default_metadata(key)`: the stored record when the entity exists, the default one otherwise. */
  function MetadataOrDefault(meta: Table<Metadata>, partition: string, key: string): (r: Metadata)
    ensures (partition, key) in meta ==> r == meta[(partition, key)]
    ensures (partition, key) !in meta ==> r.messageCount == 0 && r.lastMessageRowKey == RowKey(0)
  {
    if (partition, key) in meta then meta[(partition, key)] else DefaultMetadata()
  }

  /**
   * The store holds exactly `msgs` for `key`: its partition is the rows
   * `set_messages(key, msgs)` writes and its metadata counts them and points
   * at the last one.
   */
  ghost predicate Consistent(t: Table<ChatMessage>, meta: Table<Metadata>, partition: string, key: string, msgs: seq<ChatMessage>)
  {
    && Partition(t, key) == Rows(key, msgs)
    && (partition, key) in meta
    && meta[(partition, key)].messageCount == |msgs|
    && (|msgs| > 0 ==> meta[(partition, key)].lastMessageRowKey == RowKey(|msgs| - 1))
  }

  lemma PartitionOfSet(t: Table<ChatMessage>, key: string, msgs: seq<ChatMessage>)
    ensures Partition(OtherPartitions(t, key) + Rows(key, msgs), key) == Rows(key, msgs)
  {
    RowsContents(key, msgs);
  }

  /**
   * The entities that `set_messages`' one transaction names twice: a row of
   * the partition it deletes that is also a row it creates. The Table service
   * accepts at most one operation per entity in an entity-group transaction.
   */
  function RowsNamedTwice(t: Table<ChatMessage>, key: string, msgs: seq<ChatMessage>): (r: set<(string, string)>)
    ensures forall p :: p in r <==> p in t && p.0 == key && p in Rows(key, msgs)
  {
    Partition(t, key).Keys * Rows(key, msgs).Keys
  }

  /**
   * Setting new messages on a key that already holds messages names row
   * `rowkey(0)` in both a DELETE and a CREATE, so the transaction is refused.
   */
  lemma ResetOfNonEmptyChatIsRejected(t: Table<ChatMessage>, meta: Table<Metadata>, partition: string, key: string,
                                      current: seq<ChatMessage>, msgs: seq<ChatMessage>)
    requires Consistent(t, meta, partition, key, current)
    requires |current| > 0 && |msgs| > 0
    ensures (key, RowKey(0)) in RowsNamedTwice(t, key, msgs)
  {
    RowsContents(key, current);
    RowsContents(key, msgs);
    assert (key, RowKey(0)) in Partition(t, key);
  }

  /** `set_messages` leaves the key consistent with the given messages. */
  lemma SetMessagesConsistent(t: Table<ChatMessage>, meta: Table<Metadata>, partition: string, key: string, msgs: seq<ChatMessage>)
    ensures Consistent(OtherPartitions(t, key) + Rows(key, msgs),
                       meta[(partition, key) := Metadata(RowKey(|msgs| - 1), |msgs|)], partition, key, msgs)
  {
    PartitionOfSet(t, key, msgs);
  }

  /** `delete_messages` leaves the key consistent with no messages. */
  lemma DeleteMessagesConsistent(t: Table<ChatMessage>, meta: Table<Metadata>, partition: string, key: string)
    ensures Consistent(OtherPartitions(t, key), meta[(partition, key) := DefaultMetadata()], partition, key, [])
  {
    assert Partition(OtherPartitions(t, key), key) == map[];
  }

  /**
   * Appending (`add_message` without an index) to a consistent key never hits
   * an existing row and keeps the key consistent with one more message.
   */
  lemma AppendConsistent(t: Table<ChatMessage>, meta: Table<Metadata>, partition: string, key: string,
                         msgs: seq<ChatMessage>, m: ChatMessage)
    requires Consistent(t, meta, partition, key, msgs)
    ensures (key, RowKey(|msgs|)) !in t
    ensures Consistent(t[(key, RowKey(|msgs|)) := m],
                       meta[(partition, key) := Metadata(RowKey(|msgs|), |msgs| + 1)], partition, key, msgs + [m])
  {
    RowsContents(key, msgs);
    assert (key, RowKey(|msgs|)) !in Partition(t, key);
    assert (msgs + [m])[..|msgs|] == msgs;
  }

  /**
   * On a consistent key with messages, `delete_last_message` reads a parsable
   * last row key and leaves the key consistent with the last message gone.
   */
  lemma DeleteLastConsistent(t: Table<ChatMessage>, meta: Table<Metadata>, partition: string, key: string,
                             msgs: seq<ChatMessage>)
    requires Consistent(t, meta, partition, key, msgs) && |msgs| > 0
    ensures var n := |msgs| - 1;
            && ParseInt(meta[(partition, key)].lastMessageRowKey) == Some(n)
            && Consistent(t - {(key, RowKey(n))},
                          meta[(partition, key) := Metadata(RowKey(if n > 0 then n - 1 else 0), n)],
                          partition, key, msgs[..n])
  {
    var n := |msgs| - 1;
    var last := (key, RowKey(n));
    RowKeyParses(n);
    RowsDropLast(key, msgs);
    PartitionRemove(t, key, last);
    assert Partition(t - {last}, key) == Rows(key, msgs[..n]);
  }

  /** Removing the last row leaves the rows of all but the last message. */
  lemma RowsDropLast(key: string, msgs: seq<ChatMessage>)
    requires |msgs| > 0
    ensures Rows(key, msgs) - {(key, RowKey(|msgs| - 1))} == Rows(key, msgs[..|msgs| - 1])
  {
    var n := |msgs| - 1;
    var last := (key, RowKey(n));
    RowsContents(key, msgs[..n]);
    assert last !in Rows(key, msgs[..n]);
    assert Rows(key, msgs) == Rows(key, msgs[..n])[last := msgs[n]];
  }

  lemma PartitionRemove<V>(t: Table<V>, key: string, p: (string, string))
    ensures Partition(t - {p}, key) == Partition(t, key) - {p}
  {
  }

  /** `set_messages(key, msgs)` followed by `get_messages(key)` returns `msgs`. */
  lemma SetThenGet(t: Table<ChatMessage>, key: string, msgs: seq<ChatMessage>)
    requires |msgs| <= MaxMessages
    ensures MessagesIn(OtherPartitions(t, key) + Rows(key, msgs), key) == msgs
  {
    PartitionOfSet(t, key, msgs);
    RowsReadBack(OtherPartitions(t, key) + Rows(key, msgs), key, msgs);
  }

  /** On a consistent key, appending a message makes `get_messages` return one more, at the end. */
  lemma AppendThenGet(t: Table<ChatMessage>, meta: Table<Metadata>, partition: string, key: string,
                      msgs: seq<ChatMessage>, m: ChatMessage)
    requires Consistent(t, meta, partition, key, msgs) && |msgs| < MaxMessages
    ensures MessagesIn(t[(key, RowKey(|msgs|)) := m], key) == MessagesIn(t, key) + [m]
  {
    AppendConsistent(t, meta, partition, key, msgs, m);
    RowsReadBack(t, key, msgs);
    RowsReadBack(t[(key, RowKey(|msgs|)) := m], key, msgs + [m]);
  }

  /** On a consistent key, `delete_last_message` makes `get_messages` return all but the last. */
  lemma DeleteLastThenGet(t: Table<ChatMessage>, meta: Table<Metadata>, partition: string, key: string,
                          msgs: seq<ChatMessage>)
    requires Consistent(t, meta, partition, key, msgs) && 0 < |msgs| <= MaxMessages
    ensures MessagesIn(t - {(key, RowKey(|msgs| - 1))}, key) == msgs[..|msgs| - 1]
  {
    DeleteLastConsistent(t, meta, partition, key, msgs);
    RowsReadBack(t - {(key, RowKey(|msgs| - 1))}, key, msgs[..|msgs| - 1]);
  }

  /** Changing one key's partition leaves every other partition as it was. */
  lemma OtherPartitionUnchanged<V>(t: Table<V>, key: string, other: string, row: string, v: V)
    requires other != key
    ensures Partition(t[(key, row) := v], other) == Partition(t, other)
    ensures Partition(t - {(key, row)}, other) == Partition(t, other)
    ensures Partition(OtherPartitions(t, key), other) == Partition(t, other)
  {
  }

  /** Deletes every entity of one partition, one entity at a time. */
  method DeleteEntities<V>(t: Table<V>, key: string) returns (r: Table<V>)
    ensures r == OtherPartitions(t, key)
  {
    r := t;
    var entities := set p | p in t && p.0 == key;
    while entities != {}
      invariant entities <= r.Keys && forall p :: p in entities ==> p.0 == key
      invariant forall p :: p in r <==> p in t && (p.0 != key || p in entities)
      invariant forall p :: p in r ==> r[p] == t[p]
      decreases |entities|
    {
      var entity :| entity in entities;
      r := r - {entity};
      entities := entities - {entity};
    }
  }

  // ---------------------------------------------------------------------------
  // The store

  class AzureChatStore {
    const chatTableName: string
    const metadataTableName: string
    const metadataPartitionKey: string
    var chatTable: Table<ChatMessage>
    var metadataTable: Table<Metadata>

    /**
     * `__init__`: the metadata partition defaults to the chat table's name;
     * the two tables start with whatever the service already holds.
     */
    constructor (chatTableName: string, metadataTableName: string, metadataPartitionKey: Option<string>,
                 chatTable: Table<ChatMessage>, metadataTable: Table<Metadata>)
      ensures this.chatTableName == chatTableName && this.metadataTableName == metadataTableName
      ensures this.metadataPartitionKey == if metadataPartitionKey.None? then chatTableName else metadataPartitionKey.value
      ensures this.chatTable == chatTable && this.metadataTable == metadataTable
    {
      this.chatTableName := chatTableName;
      this.metadataTableName := metadataTableName;
      this.metadataPartitionKey := if metadataPartitionKey.None? then chatTableName else metadataPartitionKey.value;
      this.chatTable := chatTable;
      this.metadataTable := metadataTable;
    }

    /**
     * `set_messages` as written: one transaction deleting the partition and
     * creating a row per message. The service refuses the whole transaction
     * (`TableTransactionError`, nothing changes) when a row is both deleted
     * and created; otherwise the partition is replaced.
     */
    method SetMessages(key: string, messages: seq<ChatMessage>) returns (r: Result<(), StoreError>)
      modifies this
      ensures r.Err? <==> RowsNamedTwice(old(chatTable), key, messages) != {}
      ensures r.Err? ==> r.error == TableTransactionError && chatTable == old(chatTable) && metadataTable == old(metadataTable)
      ensures r.Ok? ==> chatTable == OtherPartitions(old(chatTable), key) + Rows(key, messages)
      ensures r.Ok? ==> metadataTable == old(metadataTable)[(metadataPartitionKey, key) := Metadata(RowKey(|messages| - 1), |messages|)]
    {
      if RowsNamedTwice(chatTable, key, messages) != {} {
        return Err(TableTransactionError);
      }
      ReplaceMessages(key, messages);
      r := Ok(());
    }

    /**
     * What `set_messages` evidently intends: delete the partition, then create
     * a row per message, so that no transaction names an entity twice.
     */
    method ReplaceMessages(key: string, messages: seq<ChatMessage>)
      modifies this
      ensures chatTable == OtherPartitions(old(chatTable), key) + Rows(key, messages)
      ensures metadataTable == old(metadataTable)[(metadataPartitionKey, key) := Metadata(RowKey(|messages| - 1), |messages|)]
    {
      var remaining := DeleteEntities(chatTable, key);
      var created: Table<ChatMessage> := map[];
      for idx := 0 to |messages|
        invariant created == Rows(key, messages[..idx])
        invariant metadataTable == old(metadataTable)
      {
        RowsContents(key, messages[..idx]);
        assert (key, RowKey(idx)) !in created;
        assert messages[..idx + 1][..idx] == messages[..idx];
        created := created[(key, RowKey(idx)) := messages[idx]];
      }
      assert messages[..|messages|] == messages;
      chatTable := remaining + created;
      metadataTable := metadataTable[(metadataPartitionKey, key) := Metadata(RowKey(|messages| - 1), |messages|)];
    }

    /** `get_messages`: the messages of the key's partition, in row-key order. */
    method GetMessages(key: string) returns (messages: seq<ChatMessage>)
      ensures messages == MessagesIn(chatTable, key)
    {
      var s := RowKeysOf(chatTable, key);
      var sorted := SortKeys(s);
      assert forall k :: k in sorted ==> k in Elems(sorted);
      messages := ReadRows(chatTable, key, sorted);
    }

    /**
     * `add_message`: ValueError for an index past the count; otherwise create
     * the row (ResourceExistsError if it is taken) and record it as the last.
     */
    method AddMessage(key: string, message: ChatMessage, idx: Option<int>) returns (r: Result<(), StoreError>)
      modifies this
      ensures var count := MetadataOrDefault(old(metadataTable), metadataPartitionKey, key).messageCount;
              var i := if idx.Some? then idx.value else count;
              && (idx.Some? && idx.value > count ==>
                    r == Err(ValueError("Index out of bounds: " + IntToString(idx.value)))
                    && chatTable == old(chatTable) && metadataTable == old(metadataTable))
              && (!(idx.Some? && idx.value > count) && (key, RowKey(i)) in old(chatTable) ==>
                    r == Err(ResourceExistsError) && chatTable == old(chatTable) && metadataTable == old(metadataTable))
              && (!(idx.Some? && idx.value > count) && (key, RowKey(i)) !in old(chatTable) ==>
                    r == Ok(())
                    && chatTable == old(chatTable)[(key, RowKey(i)) := message]
                    && metadataTable == old(metadataTable)[(metadataPartitionKey, key) := Metadata(RowKey(i), count + 1)])
    {
      var metadata := MetadataOrDefault(metadataTable, metadataPartitionKey, key);
      var nextIndex := metadata.messageCount;
      var i: int;
      if idx.Some? && idx.value > nextIndex {
        return Err(ValueError("Index out of bounds: " + IntToString(idx.value)));
      } else if idx.None? {
        i := nextIndex;
      } else {
        i := idx.value;
      }
      if (key, RowKey(i)) in chatTable {
        return Err(ResourceExistsError);
      }
      chatTable := chatTable[(key, RowKey(i)) := message];
      metadata := metadata.(lastMessageRowKey := RowKey(i), messageCount := nextIndex + 1);
      metadataTable := metadataTable[(metadataPartitionKey, key) := metadata];
      r := Ok(());
    }

    /** `delete_messages`: delete the partition and reset the metadata to the default. */
    method DeleteMessages(key: string)
      modifies this
      ensures chatTable == OtherPartitions(old(chatTable), key)
      ensures metadataTable == old(metadataTable)[(metadataPartitionKey, key) := DefaultMetadata()]
    {
      chatTable := DeleteEntities(chatTable, key);
      metadataTable := metadataTable[(metadataPartitionKey, key) := DefaultMetadata()];
    }

    /**
     * `delete_message`: the metadata must exist; an index at or past the count
     * changes nothing; otherwise the row goes, and the metadata moves back one
     * only when it was the last row.
     */
    method DeleteMessage(key: string, idx: int) returns (r: Result<(), StoreError>)
      modifies this
      ensures (metadataPartitionKey, key) !in old(metadataTable) ==>
                r == Err(ResourceNotFoundError) && chatTable == old(chatTable) && metadataTable == old(metadataTable)
      ensures (metadataPartitionKey, key) in old(metadataTable) ==>
                var count := old(metadataTable)[(metadataPartitionKey, key)].messageCount;
                && r == Ok(())
                && chatTable == (if idx >= count then old(chatTable) else old(chatTable) - {(key, RowKey(idx))})
                && metadataTable == (if idx == count - 1
                                     then old(metadataTable)[(metadataPartitionKey, key) := Metadata(RowKey(idx - 1), count - 1)]
                                     else old(metadataTable))
    {
      if (metadataPartitionKey, key) !in metadataTable {
        return Err(ResourceNotFoundError);
      }
      var metadata := metadataTable[(metadataPartitionKey, key)];
      var messageCount := metadata.messageCount;
      if idx >= messageCount {
        return Ok(());
      }
      chatTable := chatTable - {(key, RowKey(idx))};
      if idx == messageCount - 1 {
        metadata := metadata.(lastMessageRowKey := RowKey(idx - 1), messageCount := messageCount - 1);
        metadataTable := metadataTable[(metadataPartitionKey, key) := metadata];
      }
      r := Ok(());
    }

    /**
     * `delete_last_message`: delete the row the metadata names, then count one
     * message less and step the last row key back, never below 0. A last row
     * key that does not parse raises ValueError after the row is deleted.
     */
    method DeleteLastMessage(key: string) returns (r: Result<(), StoreError>)
      modifies this
      ensures (metadataPartitionKey, key) !in old(metadataTable) ==>
                r == Err(ResourceNotFoundError) && chatTable == old(chatTable) && metadataTable == old(metadataTable)
      ensures (metadataPartitionKey, key) in old(metadataTable) ==>
                var metadata := old(metadataTable)[(metadataPartitionKey, key)];
                var n := ParseInt(metadata.lastMessageRowKey);
                && chatTable == old(chatTable) - {(key, metadata.lastMessageRowKey)}
                && (n.None? ==>
                      r.Err? && r.error.ValueError? && metadataTable == old(metadataTable))
                && (n.Some? ==>
                      r == Ok(())
                      && metadataTable == old(metadataTable)[(metadataPartitionKey, key) :=
                           Metadata(RowKey(if n.value > 0 then n.value - 1 else 0), metadata.messageCount - 1)])
    {
      if (metadataPartitionKey, key) !in metadataTable {
        return Err(ResourceNotFoundError);
      }
      var metadata := metadataTable[(metadataPartitionKey, key)];
      var lastRowKey := metadata.lastMessageRowKey;
      chatTable := chatTable - {(key, lastRowKey)};
      var parsed := ParseInt(lastRowKey);
      if parsed.None? {
        return Err(ValueError("invalid literal for int() with base 10: " + lastRowKey));
      }
      var lastRowKeyNum := parsed.value;
      metadata := metadata.(lastMessageRowKey := RowKey(if lastRowKeyNum > 0 then lastRowKeyNum - 1 else 0),
                            messageCount := metadata.messageCount - 1);
      metadataTable := metadataTable[(metadataPartitionKey, key) := metadata];
      r := Ok(());
    }

    /** `get_keys`: the row keys of the metadata partition, in row-key order. */
    method GetKeys() returns (keys: seq<string>)
      ensures StrictlySorted(keys)
      ensures forall k :: k in keys <==> (metadataPartitionKey, k) in metadataTable
    {
      var s := RowKeysOf(metadataTable, metadataPartitionKey);
      keys := SortKeys(s);
    }
  }
}
