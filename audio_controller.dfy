/**
 The audio buffer pool of the Standards library (`StandardAudioController`).

 The pool is a table from `fileName.hashCode()` to the clips loaded under
 that key, in load order. Loading appends one idle clip to the key's bucket;
 playing rewinds and starts the first clip of the bucket that is not
 already playing, so a sound that is still playing is not cut off by a
 second trigger of the same sound. Each clip is abstracted to the file it
 was loaded from, whether it is playing and its frame position.
 */
module AudioController {
  import opened JavaLang

  /** One `StandardAudio` clip instance. */
  datatype Clip = Clip(file: string, playing: bool, position: nat)

  /** The `HashMap<Integer, LinkedList<StandardAudio>>` of the controller. */
  type Table = map<int, seq<Clip>>

  /** A freshly constructed clip: idle and at the start of the track. */
  function NewClip(fileName: string): Clip {
    Clip(fileName, false, 0)
  }

  /** The clip after `resetFramePosition()` and `start()`. */
  function Started(c: Clip): Clip {
    c.(playing := true, position := 0)
  }

  /** The bucket for `key`, or the empty list `load` creates when there is none. */
  function Bucket(t: Table, key: int): seq<Clip> {
    if key in t then t[key] else []
  }

  /** The table after `load(fileName)`. */
  function LoadTable(t: Table, fileName: string): (r: Table)
    ensures r.Keys == t.Keys + {HashCode(fileName)}
    ensures var b := Bucket(t, HashCode(fileName));
            |r[HashCode(fileName)]| == |b| + 1
            && r[HashCode(fileName)][..|b|] == b
            && r[HashCode(fileName)][|b|] == NewClip(fileName)
    ensures forall k :: k in t && k != HashCode(fileName) ==> r[k] == t[k]
  {
    var key := HashCode(fileName);
    t[key := Bucket(t, key) + [NewClip(fileName)]]
  }

  /**
   The index `play` selects: the lowest index of a clip that is not
   playing, or `|b|` when every clip is busy.
   */
  function FirstIdle(b: seq<Clip>): (i: nat)
    ensures i <= |b|
    ensures forall j :: 0 <= j < i ==> b[j].playing
    ensures i < |b| ==> !b[i].playing
  {
    if |b| == 0 || !b[0].playing then 0 else 1 + FirstIdle(b[1..])
  }

  /** The bucket after one `play`. */
  function PlayBucket(b: seq<Clip>): (r: seq<Clip>)
    ensures |r| == |b|
    ensures forall j :: 0 <= j < |b| ==> r[j].file == b[j].file
  {
    var i := FirstIdle(b);
    if i == |b| then b else b[i := Started(b[i])]
  }

  /**
   When clip `i` is idle and every clip before it is playing, `play`
   rewinds and starts clip `i` and changes no other clip.
   */
  lemma PlayStartsFirstIdle(b: seq<Clip>, i: nat)
    requires i < |b| && !b[i].playing
    requires forall j :: 0 <= j < i ==> b[j].playing
    ensures PlayBucket(b) == b[i := Started(b[i])]
    ensures forall j :: 0 <= j < |b| && j != i ==> PlayBucket(b)[j] == b[j]
  {
    assert FirstIdle(b) == i;
  }

  /** `play` leaves a bucket unchanged exactly when every clip in it is playing. */
  lemma PlayIsNoopIffAllBusy(b: seq<Clip>)
    ensures PlayBucket(b) == b <==> forall j :: 0 <= j < |b| ==> b[j].playing
  {
    var i := FirstIdle(b);
    if i < |b| {
      assert PlayBucket(b)[i] != b[i];
    }
  }

  /** The table after `play(fileName)`; the key must have a bucket. */
  function PlayTable(t: Table, fileName: string): (r: Table)
    requires HashCode(fileName) in t
    ensures r.Keys == t.Keys
    ensures forall k :: k in t && k != HashCode(fileName) ==> r[k] == t[k]
  {
    t[HashCode(fileName) := PlayBucket(t[HashCode(fileName)])]
  }

  /** Two names with the same hash code load into, and play from, one bucket. */
  lemma CollidingNamesShareBucket(t: Table, a: string, b: string)
    requires HashCode(a) == HashCode(b)
    ensures LoadTable(t, a)[HashCode(b)] == Bucket(t, HashCode(b)) + [NewClip(a)]
    ensures HashCode(b) in t ==> PlayTable(t, a) == PlayTable(t, b)
  {
  }

  /** With "Aa" loaded, `play("BB")` starts the clip loaded for "Aa". */
  lemma PlayStartsCollidingClip()
    ensures PlayTable(LoadTable(map[], "Aa"), "BB") == map[2112 := [Clip("Aa", true, 0)]]
  {
    HashCollision();
    var t := LoadTable(map[], "Aa");
    assert t == map[2112 := [NewClip("Aa")]];
    assert PlayBucket([NewClip("Aa")]) == [Clip("Aa", true, 0)];
  }

  /** The bucket after `n` calls of `play`. */
  function PlayN(b: seq<Clip>, n: nat): (r: seq<Clip>)
    ensures |r| == |b|
  {
    if n == 0 then b else PlayBucket(PlayN(b, n - 1))
  }

  /**
   Starting from idle clips, `n` plays with `n` no more than the clips
   start the first `n` clips, each from position 0, one per call, and
   leave the rest idle.
   */
  lemma {:induction false} PlaysStartDistinctClips(b: seq<Clip>, n: nat)
    requires forall j :: 0 <= j < |b| ==> !b[j].playing
    requires n <= |b|
    ensures forall j :: 0 <= j < n ==> PlayN(b, n)[j] == Started(b[j])
    ensures forall j :: n <= j < |b| ==> PlayN(b, n)[j] == b[j]
  {
    if n > 0 {
      PlaysStartDistinctClips(b, n - 1);
      var p := PlayN(b, n - 1);
      PlayStartsFirstIdle(p, n - 1);
    }
  }

  /** Once every clip of a bucket is busy, further plays change nothing. */
  lemma {:induction false} PlaysBeyondPoolAreNoops(b: seq<Clip>, n: nat)
    requires forall j :: 0 <= j < |b| ==> !b[j].playing
    requires n >= |b|
    ensures PlayN(b, n) == PlayN(b, |b|)
    ensures forall j :: 0 <= j < |b| ==> PlayN(b, n)[j] == Started(b[j])
  {
    if n == |b| {
      PlaysStartDistinctClips(b, n);
    } else {
      PlaysBeyondPoolAreNoops(b, n - 1);
      var p := PlayN(b, n - 1);
      assert forall j :: 0 <= j < |p| ==> p[j].playing;
      PlayIsNoopIffAllBusy(p);
    }
  }

  /** The table after `k` calls of `load(fileName)`. */
  function LoadN(t: Table, fileName: string, k: nat): Table {
    if k == 0 then t else LoadTable(LoadN(t, fileName, k - 1), fileName)
  }

  /** The table after `n` calls of `play(fileName)`. */
  function PlayTableN(t: Table, fileName: string, n: nat): (r: Table)
    requires HashCode(fileName) in t
    ensures r.Keys == t.Keys
  {
    if n == 0 then t else PlayTable(PlayTableN(t, fileName, n - 1), fileName)
  }

  lemma {:induction false} PlayTableNBucket(t: Table, fileName: string, n: nat)
    requires HashCode(fileName) in t
    ensures PlayTableN(t, fileName, n)[HashCode(fileName)] == PlayN(t[HashCode(fileName)], n)
  {
    if n > 0 {
      PlayTableNBucket(t, fileName, n - 1);
    }
  }

  /**
   `k` loads of a name whose key has no bucket yet create that bucket with
   exactly `k` idle clips of the file and leave every other bucket as it was.
   */
  lemma {:induction false} LoadNBucket(t: Table, fileName: string, k: nat)
    requires HashCode(fileName) !in t
    requires k > 0
    ensures HashCode(fileName) in LoadN(t, fileName, k)
    ensures var b := LoadN(t, fileName, k)[HashCode(fileName)];
            |b| == k && forall j :: 0 <= j < k ==> b[j] == NewClip(fileName)
    ensures forall key :: key in t ==> key in LoadN(t, fileName, k) && LoadN(t, fileName, k)[key] == t[key]
  {
    if k > 1 {
      LoadNBucket(t, fileName, k - 1);
      var prev := LoadN(t, fileName, k - 1);
      var b := LoadTable(prev, fileName)[HashCode(fileName)];
      assert b[..k - 1] == prev[HashCode(fileName)];
      assert forall j :: 0 <= j < k - 1 ==> b[j] == b[..k - 1][j];
    }
  }

  /**
   `k` loads of a track whose key has no bucket yet, into a pool that may
   hold other sounds, followed by `n <= k` plays of it, leave the first `n`
   clips playing from the start and the others idle.
   */
  lemma LoadsThenPlays(t: Table, fileName: string, k: nat, n: nat)
    requires HashCode(fileName) !in t
    requires 0 < k && n <= k
    ensures var l := LoadN(t, fileName, k);
            HashCode(fileName) in l
            && var r := PlayTableN(l, fileName, n)[HashCode(fileName)];
            |r| == k
            && (forall j :: 0 <= j < n ==> r[j] == Clip(fileName, true, 0))
            && (forall j :: n <= j < k ==> r[j] == Clip(fileName, false, 0))
  {
    var l := LoadN(t, fileName, k);
    LoadNBucket(t, fileName, k);
    PlayTableNBucket(l, fileName, n);
    PlaysStartDistinctClips(l[HashCode(fileName)], n);
  }

  /** The controller: the table is updated in place by `load` and `play`. */
  class StandardAudioController {
    var audioBuffer: Table

    /** The empty table `new HashMap<>(buffers)` creates. */
    constructor ()
      ensures audioBuffer == map[]
    {
      audioBuffer := map[];
    }

    /**
     `new StandardAudioController(buffers)`: a non-positive buffer count
     is rejected; any positive one yields an empty pool, since the count
     only sizes the hash map and caps nothing.
     */
    static method Create(buffers: int) returns (r: Result<StandardAudioController>)
      ensures r.Err? <==> buffers <= 0
      ensures r.Err? ==> r.error.IllegalArgumentException?
      ensures r.Ok? ==> fresh(r.value) && r.value.audioBuffer == map[]
    {
      if buffers <= 0 {
        return Err(IllegalArgumentException("The amount of buffers cannot be less than or equal to 0."));
      }
      var c := new StandardAudioController();
      return Ok(c);
    }

    /** `load(fileName)`: one more idle clip at the end of the bucket for its hash. */
    method Load(fileName: string)
      modifies this
      ensures audioBuffer == LoadTable(old(audioBuffer), fileName)
      ensures HashCode(fileName) in audioBuffer
      ensures audioBuffer[HashCode(fileName)] == Bucket(old(audioBuffer), HashCode(fileName)) + [NewClip(fileName)]
    {
      var fileHash := HashCode(fileName);
      if fileHash !in audioBuffer {
        audioBuffer := audioBuffer[HashCode(fileName) := []];
      }
      var audioList := audioBuffer[fileHash];
      audioBuffer := audioBuffer[fileHash := audioList + [NewClip(fileName)]];
    }

    /**
     `play(fileName)`: scan the bucket in load order and start the first
     clip that is not playing; when all are busy nothing happens. The
     bucket must exist (Java dereferences `null` otherwise).
     */
    method Play(fileName: string)
      requires HashCode(fileName) in audioBuffer
      modifies this
      ensures audioBuffer == PlayTable(old(audioBuffer), fileName)
      ensures audioBuffer.Keys == old(audioBuffer).Keys
      ensures |audioBuffer[HashCode(fileName)]| == |old(audioBuffer)[HashCode(fileName)]|
    {
      var fileHash := HashCode(fileName);
      var audioList := audioBuffer[fileHash];
      var i := 0;
      while i < |audioList|
        invariant 0 <= i <= |audioList|
        invariant forall j :: 0 <= j < i ==> audioList[j].playing
        invariant audioBuffer == old(audioBuffer)
      {
        var audio := audioList[i];
        if !audio.playing {
          audioBuffer := audioBuffer[fileHash := audioList[i := Started(audio)]];
          return;
        }
        i := i + 1;
      }
    }
  }
}
