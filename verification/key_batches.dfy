/**
 * Asking the server for the values of many attributes: their keys are joined with commas in a buffer of 256
 * characters and sent in batches. The client-side and the shared attributes of the extension use the same loop.
 */
module KeyBatches {
  import opened Sequences

  const MAX_KEYS_LEN: nat := 256

  /** A client-side attribute takes part only if it has a setter. */
  datatype Attribute = Attribute(key: string, hasSetter: bool)

  function WithSetter(attributes: seq<Attribute>): seq<string> {
    if attributes == [] then []
    else WithSetter(attributes[..|attributes| - 1]) +
         if attributes[|attributes| - 1].hasSetter then [attributes[|attributes| - 1].key] else []
  }

  /** strncpy keeps as much of a first key as the buffer has room for. */
  function Cut(key: string): string {
    if |key| < MAX_KEYS_LEN then key else key[..MAX_KEYS_LEN - 1]
  }

  /** The buffer after one more key: the comma is written only if the buffer holds something already. */
  function AddKey(buffer: string, key: string): string {
    if buffer == "" then Cut(key) else buffer + "," + key
  }

  function Joined(keys: seq<string>): string {
    if keys == [] then "" else AddKey(Joined(keys[..|keys| - 1]), keys[|keys| - 1])
  }

  function BatchOf(max: nat): nat {
    if max == 0 then 1 else max
  }

  /** The strings sent for these keys. */
  function Sent(batches: seq<seq<string>>): (r: seq<string>)
    ensures |r| == |batches| && forall k :: 0 <= k < |batches| ==> r[k] == Joined(batches[k])
  {
    seq(|batches|, k requires 0 <= k < |batches| => Joined(batches[k]))
  }

  /** The joined keys leave room for the terminator. */
  predicate Fits(keys: seq<string>) {
    |Joined(keys)| < MAX_KEYS_LEN
  }

  predicate FitBuffer(batches: seq<seq<string>>) {
    forall k :: 0 <= k < |batches| ==> Fits(batches[k])
  }

  /**
   * Going on with rest while the buffer holds batch, some write leaves the buffer: the size handed to strncat bounds
   * the piece that is appended, not the buffer.
   */
  predicate LeavesBuffer(batch: seq<string>, rest: seq<string>, m: nat)
    decreases |rest|
  {
    rest != [] &&
    (!Fits(batch + [rest[0]]) || LeavesBuffer(Continued(batch, rest[0], m), rest[1..], m))
  }

  /** What the buffer holds after one more key: a full batch is sent and cleared away. */
  function Continued(batch: seq<string>, key: string, m: nat): seq<string> {
    if |batch| + 1 >= m then [] else batch + [key]
  }

  // ---- The loop -----------------------------------------------------------------------------------------

  /** After looking at some attributes: the batches sent and the batch in the buffer. */
  predicate Collected(keys: seq<string>, done: seq<seq<string>>, batch: seq<string>, m: nat) {
    && |batch| < m && (forall k :: 0 <= k < |done| ==> |done[k]| == m)
    && keys == Flatten(done) + batch
  }

  lemma CollectNext(keys: seq<string>, done: seq<seq<string>>, batch: seq<string>, key: string, m: nat)
    requires Collected(keys, done, batch, m)
    ensures |batch| + 1 < m ==> Collected(keys + [key], done, batch + [key], m)
    ensures |batch| + 1 == m ==> Collected(keys + [key], done + [batch + [key]], [], m)
    ensures Joined(batch + [key]) == AddKey(Joined(batch), key)
  {
    hide Flatten, AddKey, Cut, Joined;
    var flat, more := Flatten(done), batch + [key];
    FlattenAppend(done, more);
    assert keys + [key] == flat + more;
    assert flat + more + [] == flat + more;
    JoinedAppend(batch, key);
  }

  lemma JoinedAppend(batch: seq<string>, key: string)
    ensures Joined(batch + [key]) == AddKey(Joined(batch), key)
  {
    hide AddKey;
    assert (batch + [key])[..|batch|] == batch;
  }

  lemma {:induction false} WithSetterConcat(left: seq<Attribute>, right: seq<Attribute>)
    ensures WithSetter(left + right) == WithSetter(left) + WithSetter(right)
  {
    if right == [] {
      assert left + right == left;
    } else {
      var all, init, last := left + right, right[..|right| - 1], right[|right| - 1];
      WithSetterConcat(left, init);
      assert all[..|all| - 1] == left + init && all[|all| - 1] == last;
      var own := if last.hasSetter then [last.key] else [];
      assert WithSetter(all) == WithSetter(left + init) + own && WithSetter(right) == WithSetter(init) + own;
      assert WithSetter(left) + WithSetter(init) + own == WithSetter(left) + (WithSetter(init) + own);
    }
  }

  /** Keys are separated by commas. */
  lemma JoinedWithCommas(keys: seq<string>, key: string)
    requires keys != [] && keys[0] != ""
    ensures Joined(keys + [key]) == Joined(keys) + "," + key
  {
    hide Cut;
    JoinedAppend(keys, key);
    JoinedGrows(keys, 1);
    assert keys[..1][..0] == [] && Joined(keys[..1]) == Cut(keys[0]);
    CutKeepsText(keys[0]);
  }

  lemma CutKeepsText(key: string)
    ensures key != "" ==> Cut(key) != ""
  {}

  /** An attribute takes part with its key if and only if it has a setter. */
  lemma WithSetterOne(a: Attribute)
    ensures WithSetter([a]) == if a.hasSetter then [a.key] else []
  {
    assert [a][..0] == [];
  }

  lemma {:induction false} JoinedGrows(keys: seq<string>, n: nat)
    requires n <= |keys|
    ensures |Joined(keys[..n])| <= |Joined(keys)|
    decreases |keys| - n
  {
    if n < |keys| {
      assert keys[..n + 1][..n] == keys[..n];
      JoinedGrows(keys, n + 1);
    } else {
      assert keys[..n] == keys;
    }
  }

  lemma OneMoreFits(batches: seq<seq<string>>, batch: seq<string>)
    ensures FitBuffer([batch] + batches) <==> Fits(batch) && FitBuffer(batches)
  {
    hide Fits;
    var all := [batch] + batches;
    assert all[0] == batch;
    assert forall k :: 0 <= k < |batches| ==> all[k + 1] == batches[k];
  }

  /** The loop stays inside its buffer if and only if every batch it would send fits as a whole. */
  lemma {:induction false} LeavesExactly(batch: seq<string>, rest: seq<string>, m: nat)
    requires |batch| < m && Fits(batch)
    ensures LeavesBuffer(batch, rest, m) <==> !FitBuffer(Chunks(batch + rest, m))
    decreases |rest|
  {
    hide Fits, FitBuffer;
    OneMoreFits([], batch);
    NothingFits();
    if rest == [] {
      assert batch + rest == batch && [batch] + [] == [batch];
    } else {
      var more := batch + [rest[0]];
      assert batch + rest == more + rest[1..];
      if !Fits(more) {
        TooLong(more, rest[1..], m);
      } else if |more| == m {
        LeavesExactly([], rest[1..], m);
        ChunksAfterFull([more], rest[1..], m);
        FlattenCons(more, []);
        assert [] + rest[1..] == rest[1..] && more + [] == more;
        OneMoreFits(Chunks(rest[1..], m), more);
      } else {
        LeavesExactly(more, rest[1..], m);
      }
    }
  }

  lemma NothingFits()
    ensures Fits([]) && FitBuffer([])
  {}

  /** A beginning of a batch that does not fit spoils the batch. */
  lemma TooLong(batch: seq<string>, rest: seq<string>, m: nat)
    requires 0 < |batch| <= m && !Fits(batch)
    ensures !FitBuffer(Chunks(batch + rest, m))
  {
    ChunksContinue([], batch, rest, m);
    assert Flatten<string>([]) + batch + rest == batch + rest;
    var whole := Chunks(batch + rest, m)[0];
    assert whole[..|batch|] == batch;
    JoinedGrows(whole, |batch|);
  }

  lemma CollectEnd(keys: seq<string>, done: seq<seq<string>>, batch: seq<string>, m: nat)
    requires m > 0 && Collected(keys, done, batch, m)
    ensures Chunks(keys, m) == if batch == [] then done else done + [batch]
  {
    ChunksOfFullPieces(done, batch, m);
    assert done + [] == done;
  }

  /**
   * tbce_clientattributes_initialize: what is sent is the joined batches of the keys with a setter, in order. None: a
   * write leaves the buffer, after which nothing is known.
   */
  method Initialize(attributes: seq<Attribute>, max: nat) returns (sent: Option<seq<string>>)
    ensures sent == AllSent(attributes, max)
  {
    hide Collected, Joined, WithSetter, LeavesBuffer, Fits, Chunks;
    var strings: seq<string>, clientKeys, i := [], "", 0;
    ghost var done: seq<seq<string>>, batch: seq<string> := [], [];
    CollectNothing(attributes, BatchOf(max));
    assert attributes[0..] == attributes;
    for n := 0 to |attributes|
      invariant Collected(WithSetter(attributes[..n]), done, batch, BatchOf(max))
      invariant LeavesBuffer([], WithSetter(attributes), BatchOf(max)) ==
                LeavesBuffer(batch, WithSetter(attributes[n..]), BatchOf(max))
      invariant i == |batch| < BatchOf(max) && clientKeys == Joined(batch)
      invariant strings == Sent(done)
    {
      WithSetterNext(attributes, n);
      WithSetterRest(attributes, n);
      if attributes[n].hasSetter {
        LeavesNext(batch, attributes[n].key, WithSetter(attributes[n + 1..]), BatchOf(max));
        CollectNext(WithSetter(attributes[..n]), done, batch, attributes[n].key, BatchOf(max));
        if clientKeys == "" {
          clientKeys := Cut(attributes[n].key);
        } else {
          clientKeys := clientKeys + ",";
          clientKeys := clientKeys + attributes[n].key;
        }
        if |clientKeys| >= MAX_KEYS_LEN {
          return None;
        }
        batch := batch + [attributes[n].key];
        i := i + 1;
        if i >= max {
          strings := strings + [clientKeys];
          done, batch := done + [batch], [];
          i := 0;
          clientKeys := "";
          JoinedNothing();
        }
      }
    }
    assert attributes[..|attributes|] == attributes && attributes[|attributes|..] == [];
    NothingLeaves(batch, BatchOf(max));
    CollectEnd(WithSetter(attributes), done, batch, BatchOf(max));
    if i > 0 {
      strings := strings + [clientKeys];
    }
    assert strings == Sent(Chunks(WithSetter(attributes), BatchOf(max)));
    sent := Some(strings);
  }

  /** The strings sent for the keys with a setter, as long as the loop stays inside its buffer. */
  function AllSent(attributes: seq<Attribute>, max: nat): Option<seq<string>> {
    var keys, m := WithSetter(attributes), BatchOf(max);
    if LeavesBuffer([], keys, m) then None else Some(Sent(Chunks(keys, m)))
  }

  lemma LeavesNext(batch: seq<string>, key: string, rest: seq<string>, m: nat)
    ensures LeavesBuffer(batch, [key] + rest, m) <==>
            |AddKey(Joined(batch), key)| >= MAX_KEYS_LEN || LeavesBuffer(Continued(batch, key, m), rest, m)
  {
    hide AddKey, Continued;
    assert ([key] + rest)[1..] == rest;
    JoinedAppend(batch, key);
  }

  lemma NothingLeaves(batch: seq<string>, m: nat)
    ensures !LeavesBuffer(batch, WithSetter([]), m)
  {}

  lemma WithSetterRest(attributes: seq<Attribute>, n: nat)
    requires n < |attributes|
    ensures WithSetter(attributes[n..]) ==
            (if attributes[n].hasSetter then [attributes[n].key] else []) + WithSetter(attributes[n + 1..])
    ensures !attributes[n].hasSetter ==> WithSetter(attributes[n..]) == WithSetter(attributes[n + 1..])
  {
    assert attributes[n..] == [attributes[n]] + attributes[n + 1..];
    WithSetterConcat([attributes[n]], attributes[n + 1..]);
    assert [attributes[n]][..0] == [] && [] + WithSetter(attributes[n + 1..]) == WithSetter(attributes[n + 1..]);
  }

  lemma CollectNothing(attributes: seq<Attribute>, m: nat)
    requires m > 0
    ensures Collected(WithSetter(attributes[..0]), [], [], m) && Joined([]) == ""
  {}

  lemma JoinedNothing()
    ensures Joined([]) == ""
  {}

  lemma WithSetterNext(attributes: seq<Attribute>, n: nat)
    requires n < |attributes|
    ensures WithSetter(attributes[..n + 1]) ==
            WithSetter(attributes[..n]) + if attributes[n].hasSetter then [attributes[n].key] else []
    ensures !attributes[n].hasSetter ==> WithSetter(attributes[..n + 1]) == WithSetter(attributes[..n])
  {
    assert attributes[..n + 1][..n] == attributes[..n];
  }

  // ---- What the server reads ----------------------------------------------------------------------------

  /** The keys a comma-separated string stands for. */
  function Split(s: string): (r: seq<string>)
    ensures |r| > 0
  {
    if s == "" then [""]
    else
      var init := Split(s[..|s| - 1]);
      if s[|s| - 1] == ',' then init + [""]
      else init[..|init| - 1] + [init[|init| - 1] + [s[|s| - 1]]]
  }

  predicate CommaFree(key: string) {
    forall i :: 0 <= i < |key| ==> key[i] != ','
  }

  lemma {:induction false} SplitAppend(s: string, key: string)
    requires CommaFree(key)
    ensures Split(s + key) == Split(s)[..|Split(s)| - 1] + [Split(s)[|Split(s)| - 1] + key]
  {
    if key == "" {
      assert s + key == s;
      assert Split(s)[|Split(s)| - 1] + key == Split(s)[|Split(s)| - 1];
    } else {
      var init := key[..|key| - 1];
      SplitAppend(s, init);
      assert (s + key)[..|s + key| - 1] == s + init;
      assert Split(s)[|Split(s)| - 1] + init + [key[|key| - 1]] == Split(s)[|Split(s)| - 1] + key;
    }
  }

  lemma SplitComma(s: string, key: string)
    requires CommaFree(key)
    ensures Split(s + "," + key) == Split(s) + [key]
  {
    var t := s + ",";
    assert t[..|t| - 1] == s;
    assert Split(t) == Split(s) + [""];
    SplitAppend(t, key);
    assert Split(t)[..|Split(t)| - 1] == Split(s) && "" + key == key;
  }

  lemma SplitOne(key: string)
    requires CommaFree(key)
    ensures Split(key) == [key]
  {
    SplitAppend("", key);
    assert "" + key == key;
    assert Split("") == [""];
  }

  lemma {:induction false} SplitCommaFree(s: string)
    ensures forall i :: 0 <= i < |Split(s)| ==> CommaFree(Split(s)[i])
  {
    if s != "" {
      SplitCommaFree(s[..|s| - 1]);
    }
  }

  predicate AllCommaFree(keys: seq<string>) {
    forall i :: 0 <= i < |keys| ==> CommaFree(keys[i])
  }

  /** The keys a request made with this string asks for: without any key no request is sent. */
  function Asked(s: string): seq<string> {
    if s == "" then [] else Split(s)
  }

  /** What the server reads of a batch, as long as the loop stays inside its buffer. */
  function Received(keys: seq<string>): Option<seq<string>> {
    if Fits(keys) then Some(Asked(Joined(keys))) else None
  }

  /** The batch fits, no key has a comma, and the first key is neither empty nor cut. */
  predicate Readable(keys: seq<string>)
    requires keys != []
  {
    Fits(keys) && AllCommaFree(keys) && 0 < |keys[0]| < 256
  }

  /** What the server reads: the keys, the first one cut. */
  lemma {:induction false} SplitJoined(keys: seq<string>)
    requires keys != [] && AllCommaFree(keys) && keys[0] != ""
    ensures Split(Joined(keys)) == [Cut(keys[0])] + keys[1..] && Joined(keys) != ""
    ensures |keys| == 1 ==> Joined(keys) == Cut(keys[0])
  {
    var n := |keys| - 1;
    var init, last := keys[..n], keys[n];
    if n == 0 {
      assert init == [];
      SplitOne(Cut(last));
      assert [Cut(last)] + keys[1..] == [Cut(last)];
    } else {
      SplitJoined(init);
      SplitComma(Joined(init), last);
      assert init[1..] + [last] == keys[1..];
      assert [Cut(keys[0])] + init[1..] + [last] == [Cut(keys[0])] + keys[1..];
    }
  }

  lemma {:induction false} PiecesOfJoined(keys: seq<string>)
    requires keys != [] && AllCommaFree(keys)
    ensures |Split(Joined(keys))| <= |keys|
    ensures keys[0] == "" ==> |Asked(Joined(keys))| < |keys|
    ensures |keys| == 1 ==> Joined(keys) == Cut(keys[0])
  {
    var n := |keys| - 1;
    var init, last := keys[..n], keys[n];
    SplitOne(Cut(last));
    if n == 0 {
      assert init == [];
    } else {
      PiecesOfJoined(init);
      SplitComma(Joined(init), last);
    }
  }

  /**
   * The server reads exactly the keys of a batch if and only if the joined batch fits the buffer, no key contains a
   * comma, and the first key is not empty, which would lose it with its comma, nor too long, which would cut it.
   */
  lemma ReadBackExactly(keys: seq<string>)
    requires keys != []
    ensures Received(keys) == Some(keys) <==> Readable(keys)
  {
    AskedExactly(keys);
  }

  lemma AskedExactly(keys: seq<string>)
    requires keys != []
    ensures Asked(Joined(keys)) == keys <==> AllCommaFree(keys) && 0 < |keys[0]| < 256
    ensures AllCommaFree(keys) ==> |Asked(Joined(keys))| <= |keys|
  {
    hide Joined;
    if !AllCommaFree(keys) {
      SplitCommaFree(Joined(keys));
    } else if keys[0] == "" {
      PiecesOfJoined(keys);
    } else {
      SplitJoined(keys);
      assert [keys[0]] + keys[1..] == keys;
      if Cut(keys[0]) != keys[0] { assert ([Cut(keys[0])] + keys[1..])[0] != keys[0]; }
    }
  }

  /** An empty first key is lost. */
  lemma EmptyFirstKeyIsLost()
    ensures Received(["", "mode"]) == Some(["mode"])
  {
    assert ["", "mode"][..1] == [""] && [""][..0] == [];
    assert Joined(["", "mode"]) == "mode";
    SplitOne("mode");
  }

  /** A first key that does not fit the buffer loses its end. */
  lemma LongFirstKeyIsCut(key: string)
    requires |key| >= 256 && CommaFree(key)
    ensures Received([key]) == Some([key[..255]])
  {
    SplitJoined([key]);
    assert [Cut(key)] + [key][1..] == [Cut(key)];
  }

  /** Everything the server reads from the strings sent, in order. */
  function ReadAll(sent: seq<string>): seq<string> {
    if sent == [] then [] else ReadAll(sent[..|sent| - 1]) + Asked(sent[|sent| - 1])
  }

  /** What the server reads of all keys with a setter; None: a write of the loop leaves the buffer. */
  function ServerReads(attributes: seq<Attribute>, max: nat): Option<seq<string>> {
    match AllSent(attributes, max)
    case None => None
    case Some(sent) => Some(ReadAll(sent))
  }

  predicate NoneEmpty(batches: seq<seq<string>>) {
    forall k :: 0 <= k < |batches| ==> batches[k] != []
  }

  predicate AllReadable(batches: seq<seq<string>>)
    requires NoneEmpty(batches)
  {
    forall k :: 0 <= k < |batches| ==> AllCommaFree(batches[k]) && 0 < |batches[k][0]| < 256
  }

  lemma {:induction false} ReadCommaFree(sent: seq<string>)
    ensures AllCommaFree(ReadAll(sent))
  {
    hide CommaFree;
    if sent != [] {
      ReadCommaFree(sent[..|sent| - 1]);
      SplitCommaFree(sent[|sent| - 1]);
    }
  }

  lemma SentInit(batches: seq<seq<string>>)
    requires batches != []
    ensures var n := |batches| - 1;
            ReadAll(Sent(batches)) == ReadAll(Sent(batches[..n])) + Asked(Joined(batches[n]))
  {
    hide Asked, Joined;
    assert Sent(batches)[..|batches| - 1] == Sent(batches[..|batches| - 1]);
  }

  /** Batches of comma-free keys never come out as more keys, and unchanged only if each of them does. */
  lemma {:induction false} ReadBatches(batches: seq<seq<string>>)
    requires NoneEmpty(batches) && forall k :: 0 <= k < |batches| ==> AllCommaFree(batches[k])
    ensures |ReadAll(Sent(batches))| <= |Flatten(batches)|
    ensures ReadAll(Sent(batches)) == Flatten(batches) <==> AllReadable(batches)
  {
    hide Asked, Joined, AllCommaFree, Sent;
    if batches != [] {
      hide ReadAll;
      var init, last := batches[..|batches| - 1], batches[|batches| - 1];
      ReadBatches(init);
      SentInit(batches);
      AskedExactly(last);
      SameParts(ReadAll(Sent(init)), Asked(Joined(last)), Flatten(init), last);
      AllReadableInit(batches);
    }
  }

  lemma SameParts<T>(a: seq<T>, b: seq<T>, c: seq<T>, d: seq<T>)
    requires |a| <= |c| && |b| <= |d|
    ensures a + b == c + d <==> a == c && b == d
  {
    if a + b == c + d {
      assert |a| == |c| && |b| == |d|;
      assert a == (a + b)[..|a|] && b == (a + b)[|a|..];
      assert c == (c + d)[..|a|] && d == (c + d)[|a|..];
    }
  }

  lemma AllReadableInit(batches: seq<seq<string>>)
    requires NoneEmpty(batches) && batches != []
    ensures var n := |batches| - 1;
            AllReadable(batches) <==>
            AllReadable(batches[..n]) && AllCommaFree(batches[n]) && 0 < |batches[n][0]| < 256
  {
    hide AllCommaFree;
    var n := |batches| - 1;
    assert forall k :: 0 <= k < n ==> batches[..n][k] == batches[k];
  }

  /**
   * The server reads exactly the keys with a setter, in order and once each, if and only if every batch fits the
   * buffer, no key contains a comma, and no batch begins with an empty or a cut key.
   */
  lemma NothingLostExactly(attributes: seq<Attribute>, max: nat)
    ensures var keys := WithSetter(attributes);
            var batches := Chunks(keys, BatchOf(max));
            NoneEmpty(batches) &&
            (ServerReads(attributes, max) == Some(keys) <==>
             forall k :: 0 <= k < |batches| ==> Readable(batches[k]))
  {
    hide Asked, Joined, CommaFree, ReadAll, Sent, Fits;
    var keys := WithSetter(attributes);
    var batches := Chunks(keys, BatchOf(max));
    ChunksPartition(keys, BatchOf(max));
    NothingFits();
    LeavesExactly([], keys, BatchOf(max));
    assert [] + keys == keys;
    ReadCommaFree(Sent(batches));
    forall k, j | 0 <= k < |batches| && 0 <= j < |batches[k]| ensures batches[k][j] in keys {
      InFlatten(batches, k, j);
    }
    if forall k :: 0 <= k < |batches| ==> AllCommaFree(batches[k]) {
      ReadBatches(batches);
    }
  }

  predicate IsProper(key: string) {
    0 < |key| < 256 && CommaFree(key)
  }

  /**
   * For keys without commas, each neither empty nor longer than 255 characters, nothing is lost if and only if every
   * joined batch fits the buffer; and no request asks for more than max(1, m) keys.
   */
  lemma NothingLost(attributes: seq<Attribute>, max: nat)
    requires forall i :: 0 <= i < |attributes| ==> IsProper(attributes[i].key)
    ensures var keys := WithSetter(attributes);
            var batches := Chunks(keys, BatchOf(max));
            && (ServerReads(attributes, max) == Some(keys) <==>
                forall k :: 0 <= k < |batches| ==> |Joined(batches[k])| <= 255)
            && forall k :: 0 <= k < |batches| ==> 0 < |batches[k]| <= (if max == 0 then 1 else max)
  {
    hide ServerReads, Joined;
    var keys := WithSetter(attributes);
    var batches := Chunks(keys, BatchOf(max));
    ChunksPartition(keys, BatchOf(max));
    KeysAreProper(attributes);
    NothingLostExactly(attributes, max);
    forall k, j | 0 <= k < |batches| && 0 <= j < |batches[k]| ensures IsProper(batches[k][j]) {
      InFlatten(batches, k, j);
    }
  }

  function Repeated(c: char, n: nat): string {
    seq(n, _ => c)
  }

  /** Two keys of 200 characters, each of them fine, make the loop leave its buffer. */
  lemma TwoLongKeysOverrun()
    ensures IsProper(Repeated('a', 200)) && IsProper(Repeated('b', 200))
    ensures ServerReads([Attribute(Repeated('a', 200), true), Attribute(Repeated('b', 200), true)], 10) == None
  {
    TwoKeysOverrun(Repeated('a', 200), Repeated('b', 200));
  }

  lemma TwoKeysOverrun(a: string, b: string)
    requires IsProper(a) && IsProper(b) && |a| + 1 + |b| >= 256
    ensures ServerReads([Attribute(a, true), Attribute(b, true)], 10) == None
  {
    hide LeavesBuffer, Joined, CommaFree;
    var first, second := Attribute(a, true), Attribute(b, true);
    WithSetterRest([first, second], 0);
    WithSetterRest([first, second], 1);
    assert [first, second][1..] == [second] && [first, second][2..] == [] && [first, second][0..] == [first, second];
    assert WithSetter([first, second]) == [a] + [b];
    JoinedNothing();
    JoinedAppend([], a);
    assert [] + [a] == [a];
    assert Joined([a]) == a;
    LeavesNext([], a, [b], 10);
    assert [b] == [b] + [];
    LeavesNext([a], b, [], 10);
  }

  lemma {:induction false} KeysAreProper(attributes: seq<Attribute>)
    requires forall i :: 0 <= i < |attributes| ==> IsProper(attributes[i].key)
    ensures forall key :: key in WithSetter(attributes) ==> IsProper(key)
  {
    hide IsProper;
    if attributes != [] { KeysAreProper(attributes[..|attributes| - 1]); }
  }
}
