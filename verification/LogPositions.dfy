/** Reading in between: blocks that were loaded leave the file stream at the start of the file, and a
    block is appended where the file stream stands. */
module LogPositions {
  import opened Bytes
  import opened ControlBlocks
  import opened BlockFiles
  import opened StreamWriters
  import opened LogStore
  import opened LogRuns
  import opened LogSessions

  /** Processing a job out of place: the block goes over what is on file from where the file stream stands,
      and the file is left shorter than the handler counts. */
  lemma OutOfPlaceIsShort(st: Store, tiles: seq<Tile>, stories: seq<Story>)
    requires StoreFits(st, tiles, stories) && st.jobs != [] && !InPlace(st)
    ensures Ready(st)
    ensures var st' := ProcessOne(st); |st'.file| < st'.offset
    ensures var w, file' := st.writers[st.jobs[0]], ProcessOne(st).file;
            var over := WriteAt(st.file, st.position, Image(w));
            st.position < st.offset
            && (file' == over || (w.previous.Some? && file' == WriteAt(over, w.previous.value, BigEndian(st.offset, 8))))
  {
    hide Chain, Flatten, Decode, Image, Tell, StoreFits, Unreported, PatchNext;
    JobsAreReady(st, tiles, stories);
    var s := st.jobs[0];
    WriterKnows(st, tiles, stories, s);
    StoreFacts(st, tiles, stories);
    ChainIncreases(tiles, s);
    var c := Chain(tiles, s);
    if c != [] {
      assert c[|c| - 1].off + HEADER <= |st.file|;
    }
    assert st.writers[s].capacity > HEADER by {
      assert Cut(stories[s].pieces, st.writers[s].capacity);
    }
  }

  /** Processing a write job keeps the store exactly when the job is a rewrite or the file stream
      stands at the end of the file. */
  lemma ProcessKeepsStoreIffInPlace(st: Store, tiles: seq<Tile>, stories: seq<Story>)
    requires StoreFits(st, tiles, stories) && st.jobs != []
    requires Ready(st) && st.offset + st.writers[st.jobs[0]].capacity < NO_NEXT
    ensures InPlace(st) <==> exists tiles': seq<Tile> :: StoreFits(ProcessOne(st), tiles', stories)
  {
    hide StoreFits, ProcessOne, Ready;
    if InPlace(st) {
      StepKeepsStore(st, tiles, stories, Process);
      assert StoreFits(ProcessOne(st), Reblocked(tiles, st, Process), stories);
    } else {
      OutOfPlaceIsShort(st, tiles, stories);
      forall tiles': seq<Tile>
        ensures !StoreFits(ProcessOne(st), tiles', stories)
      {
        if StoreFits(ProcessOne(st), tiles', stories) {
          StoreFacts(ProcessOne(st), tiles', stories);
        }
      }
    }
  }

  const DATA: seq<Byte> := [1, 2, 3, 4]

  /** A writer of blocks of 32 bytes, with as many buffers waiting as there are numbers in `jobs`. */
  function Small(file: seq<Byte>, num: nat, jobs: seq<nat>): Store {
    var previous := if num == 0 then None else Some(0);
    var queue := if jobs == [] then [] else [Buffer(DATA, 0, None)];
    Store(file, |file|, |file|, [Writer(0, 32, queue, Some(EMPTY), num, None, previous)], jobs, [previous], [Place(0, 0)])
  }

  lemma PutFillsBlock(file: seq<Byte>, num: nat)
    ensures Enabled(Small(file, num, []), Put(0, DATA))
    ensures Step(Small(file, num, []), Put(0, DATA)) == Small(file, num, [0])
  {
    var w := Small(file, num, []).writers[0];
    assert Open(w) && [] + DATA[..4] == DATA;
    assert Write(w, DATA) == Small(file, num, [0]).writers[0];
    assert Repeat(0, 1) == [0];
  }

  lemma FirstBlockProcessed()
    ensures Enabled(Small([], 0, [0]), Process)
    ensures var st := Step(Small([], 0, [0]), Process); |st.file| == 32 && st == Small(st.file, 1, [])
  {
    hide EncodeBlock;
    var st := Small([], 0, [0]);
    var w := st.writers[0];
    var file := WriteAt([], 0, Image(w));
    assert |Image(w)| == 32 && |file| == 32;
    assert w.queue[1..] == [] && AfterAppend(w, 0) == Small(file, 1, []).writers[0];
    var st' := ProcessOne(st);
    assert st'.writers == [AfterAppend(w, 0)] && st'.firsts == [Some(0)] && st'.tags == [Place(0, 0)] && st'.jobs == [];
  }

  ghost predicate Reached(ops: seq<Op>, st: Store) {
    IsSession(ops) && After(ops) == st
  }

  lemma OneMore(ops: seq<Op>, st: Store, op: Op)
    requires Reached(ops, st) && Enabled(st, op)
    ensures Reached(ops + [op], Step(st, op))
  {
    hide Enabled, Step;
    assert (ops + [op])[..|ops|] == ops;
  }

  lemma FirstStep()
    ensures Reached([], NEW_FILE) && Enabled(NEW_FILE, Create(32)) && Step(NEW_FILE, Create(32)) == Small([], 0, [])
  {
  }

  lemma LoadMoves(st: Store)
    ensures Enabled(st, Load) && Step(st, Load) == st.(position := 0)
  {
  }

  /** A session that gets there: a block on file, a second one waiting, and a load in between. */
  lemma LoadPutsAppendOutOfPlace() returns (st: Store)
    ensures Reached([Create(32), Put(0, DATA), Process, Put(0, DATA), Load], st) && st.jobs != [] && !InPlace(st)
  {
    hide Image, Step, Enabled, Reached;
    var b := Put(0, DATA);
    FirstStep();
    OneMore([], NEW_FILE, Create(32));
    PutFillsBlock([], 0);
    OneMore([] + [Create(32)], Small([], 0, []), b);
    FirstBlockProcessed();
    var ops2 := [] + [Create(32)] + [b];
    OneMore(ops2, Small([], 0, [0]), Process);
    st := Step(Small([], 0, [0]), Process);
    PutFillsBlock(st.file, 1);
    OneMore(ops2 + [Process], st, b);
    var ops4 := ops2 + [Process] + [b];
    st := Small(st.file, 1, [0]);
    LoadMoves(st);
    OneMore(ops4, st, Load);
    st := st.(position := 0);
    assert ops4 + [Load] == [Create(32), b, Process, b, Load];
  }
}
