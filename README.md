# Standards game library: audio buffer pool and application lifecycle

This project models the two stateful components of the Standards Java game
library and proves properties of them in Dafny.

- **`StandardAudioController`** (`audio_controller.dfy`, module
  `AudioController`) is an audio buffer pool. It keeps a table from
  `fileName.hashCode()` to the clip instances loaded under that key, in load
  order. `load` appends one idle clip to the key's bucket, creating the
  bucket when it is missing. `play` scans the bucket in load order. It
  rewinds and starts the first clip that is not playing. When every clip is
  busy, `play` does nothing. The class keeps the table in a `map` field that
  `Load` and `Play` reassign. Each clip is the file it was loaded from, a
  playing flag and a frame position.
- **`StandardSwingApplication`** (`swing_application.dfy`, module
  `SwingApplication`) is the game-loop host, with its window and timers
  abstracted. `setFPS` turns the frame rate into a timer period. `start`
  marks the application running and creates and starts one timer, unless it
  is already running. Each timer tick either shuts the application down
  (when it is no longer marked running) or calls `run()` and then requests a
  repaint. Timers are values holding a delay and a started flag. Everything
  the frame and the process see is recorded as a log of events (`Run`,
  `Repaint`, `Dispose`, `Exit`).
- **`JavaLang`** (`java_lang.dfy`) holds the Java semantics these two
  classes rely on. `String.hashCode()` is modelled by its Java definition:
  `31 * h + c`, wrapped to 32 bits. It also holds integer division that
  truncates toward zero, and the exceptions the code throws.

Both classes come with a `Create` factory that returns `Err` where the Java
constructor throws, so the error paths stay inside the model. A tick calls
`run()` and then `repaint()`. A tick after `setRunning(false)` exits
without running a frame. Calling the public `setRunning(true)` before the
`start()` that the constructor queues means that `start()` returns at once,
so no timer is ever created. The module-level scenario methods show these
behaviours. Two more scenarios call the model's `Start` twice, to exercise
the guard at the top of `start()` on its own:
- A second `Start` while running creates no second timer.
- `setRunning(false)` followed by `Start` before any tick creates a second
  timer while the first is still started.

Because buckets are keyed by hash code, two different names with the same
hash share a bucket. `"Aa"` and `"BB"` both hash to 2112, so after loading
`"Aa"`, `play("BB")` starts the `"Aa"` clip.

## Model

| member | source | states |
|---|---|---|
| JavaLang.Wrap32 | src/com/revivedstandards/controller/StandardAudioController.java:73 | the result is a Java `int` congruent to the input modulo 2^32, and an input that already fits is unchanged |
| JavaLang.HashCode | src/com/revivedstandards/controller/StandardAudioController.java:73 | the key `fileName.hashCode()` is always a Java `int`, and the empty name hashes to 0 |
| JavaLang.HashCollision | src/com/revivedstandards/controller/StandardAudioController.java:73 | the distinct names "Aa" and "BB" get the same key, 2112 |
| JavaLang.JavaDiv | src/com/revivedstandards/platform/StandardSwingApplication.java:150 | Java `/` truncates: the magnitude of the quotient is the floor of the ratio of magnitudes, and the quotient's sign follows the operands' signs |
| AudioController.LoadTable | src/com/revivedstandards/controller/StandardAudioController.java:71-83 | load adds the key if missing. It makes that bucket exactly one longer, keeps its old clips as a prefix, puts an idle clip of the file at the end and leaves every other bucket unchanged |
| AudioController.FirstIdle | src/com/revivedstandards/controller/StandardAudioController.java:94-97 | the scan stops at the lowest index whose clip is not playing; every clip before it is playing; it is the bucket length when all are busy |
| AudioController.PlayBucket | src/com/revivedstandards/controller/StandardAudioController.java:94-104 | play keeps the bucket's length and every clip's file: no clip is added, removed or replaced |
| AudioController.PlayStartsFirstIdle | src/com/revivedstandards/controller/StandardAudioController.java:94-101 | when clip i is idle and all clips before it are playing, play rewinds and starts clip i (position 0, playing) and changes no other clip |
| AudioController.PlayIsNoopIffAllBusy | src/com/revivedstandards/controller/StandardAudioController.java:94-104 | play leaves the bucket unchanged if and only if every clip in it is already playing (no error, no new clip) |
| AudioController.PlayTable | src/com/revivedstandards/controller/StandardAudioController.java:89-104 | play adds or removes no bucket and leaves every other key's bucket unchanged |
| AudioController.CollidingNamesShareBucket | src/com/revivedstandards/controller/StandardAudioController.java:73-93 | names with equal hash codes load into the same bucket and play from it identically |
| AudioController.PlayStartsCollidingClip | src/com/revivedstandards/controller/StandardAudioController.java:89-101 | after load("Aa") into an empty pool, play("BB") starts the clip loaded for "Aa" |
| AudioController.PlaysStartDistinctClips | src/com/revivedstandards/controller/StandardAudioController.java:94-101 | from an all-idle bucket, n plays (n at most the bucket size) start the first n clips from position 0, one distinct clip per call, and leave the rest untouched |
| AudioController.PlaysBeyondPoolAreNoops | src/com/revivedstandards/controller/StandardAudioController.java:94-104 | once every clip is started, further plays change nothing: no clip is created and none is restarted |
| AudioController.PlayTableN | src/com/revivedstandards/controller/StandardAudioController.java:89-104 | any number of plays keeps the table's set of keys |
| AudioController.PlayTableNBucket | src/com/revivedstandards/controller/StandardAudioController.java:89-104 | repeated plays on the table act on the played key's bucket as repeated bucket plays |
| AudioController.LoadNBucket | src/com/revivedstandards/controller/StandardAudioController.java:71-83 | k loads of a name whose key has no bucket yet create that bucket with exactly k idle clips of that file, and every other bucket of the pool is unchanged |
| AudioController.LoadsThenPlays | src/com/revivedstandards/controller/StandardAudioController.java:71-104 | after k loads of a name whose key had no bucket (other sounds may already be loaded) and n <= k plays of it, the bucket holds k clips: the first n playing from position 0, the rest idle |
| AudioController.StandardAudioController.constructor | src/com/revivedstandards/controller/StandardAudioController.java:63 | a new controller starts with an empty table |
| AudioController.StandardAudioController.Create | src/com/revivedstandards/controller/StandardAudioController.java:51-64 | construction fails with IllegalArgumentException exactly when buffers <= 0; any positive count gives a fresh, empty pool (the count is no cap) |
| AudioController.StandardAudioController.Load | src/com/revivedstandards/controller/StandardAudioController.java:71-83 | the new table is the load of the old one: the key's bucket, empty if it was missing, gains one idle clip of the file at its end |
| AudioController.StandardAudioController.Play | src/com/revivedstandards/controller/StandardAudioController.java:89-104 | the index loop leaves exactly the table-level play of the old table: same keys and bucket length, with the first idle clip started or nothing changed as the two lemmas above state |
| SwingApplication.PeriodMs | src/com/revivedstandards/platform/StandardSwingApplication.java:148-151 | for positive fps, ms is the largest value with ms * fps <= 1000; negative fps gives the negated period of -fps; any fps beyond +-1000 gives ms == 0 |
| SwingApplication.FrameLog | src/com/revivedstandards/platform/StandardSwingApplication.java:130-141 | n ticks that ran produce 2n events |
| SwingApplication.FrameLogAlternates | src/com/revivedstandards/platform/StandardSwingApplication.java:135-140 | in the events of running ticks, `run()` (even positions) always precedes a repaint (odd positions) |
| SwingApplication.StandardSwingApplication.constructor | src/com/revivedstandards/platform/StandardSwingApplication.java:37-49 | a new application stores fps and its period, is not running, has no timer and has logged nothing |
| SwingApplication.StandardSwingApplication.Create | src/com/revivedstandards/platform/StandardSwingApplication.java:37-49 | construction throws ArithmeticException exactly when fps == 0; otherwise the application is fresh and not running |
| SwingApplication.StandardSwingApplication.SetFPS | src/com/revivedstandards/platform/StandardSwingApplication.java:148-151 | fps is always stored. A zero fps throws after the store and keeps the old period. Any other fps sets the period to the truncated 1000 / fps |
| SwingApplication.StandardSwingApplication.GetFPS | src/com/revivedstandards/platform/StandardSwingApplication.java:153-155 | returns the stored frame rate |
| SwingApplication.StandardSwingApplication.IsRunning | src/com/revivedstandards/platform/StandardSwingApplication.java:157-159 | returns the running flag |
| SwingApplication.StandardSwingApplication.SetRunning | src/com/revivedstandards/platform/StandardSwingApplication.java:161-163 | sets the running flag and keeps the lifecycle invariant |
| SwingApplication.StandardSwingApplication.Start | src/com/revivedstandards/platform/StandardSwingApplication.java:108-115 | when already running nothing changes; otherwise the application becomes running and exactly one started timer with the current period is added |
| SwingApplication.StandardSwingApplication.Update | src/com/revivedstandards/platform/StandardSwingApplication.java:129-144 | appends one started timer whose delay is the current period |
| SwingApplication.StandardSwingApplication.Stop | src/com/revivedstandards/platform/StandardSwingApplication.java:120-124 | stops the last timer, logs dispose then exit, and reaches the terminal state |
| SwingApplication.StandardSwingApplication.Tick | src/com/revivedstandards/platform/StandardSwingApplication.java:130-141 | when not running, the tick stops the last timer and exits (terminal) without running a frame; otherwise it logs `run()` then repaint and counts one frame, creating no timer |
| SwingApplication.StartTwiceScenario | src/com/revivedstandards/platform/StandardSwingApplication.java:108-144 | start twice, then tick: exactly one timer exists, with period 1000 / fps, and one frame runs |
| SwingApplication.RestartBeforeTickScenario | src/com/revivedstandards/platform/StandardSwingApplication.java:108-115 | start, setRunning(false), start: two timers with period 1000 / fps are created and both are still started |
| SwingApplication.RunningBeforeStartScenario | src/com/revivedstandards/platform/StandardSwingApplication.java:108-111 | setRunning(true) before start: start returns at once and no timer is ever created |
| SwingApplication.ShutdownScenario | src/com/revivedstandards/platform/StandardSwingApplication.java:130-141 | tick, setRunning(false), tick: the events are run, repaint, dispose, exit |

## Left out

- `play` for a name that was never loaded throws `NullPointerException` at `audioList.size()`. `Play` and `PlayTable` therefore require the key's bucket to exist; the exception itself is not modelled.
- The "audio buffer already exists" check in the controller's constructor is not modelled. The field is always `null` in a constructor, so that branch cannot be reached and double initialisation is not an error case of `Create`.
- In Java `start()` is private, and its only caller is the `invokeLater` the constructor queues, so it runs once per instance. The model's `Start` is callable on its own. `StartTwiceScenario` and `RestartBeforeTickScenario` exercise its guard by calling it twice, which no Java caller can do.
- Closing the window also ends the process, because the frame uses `EXIT_ON_CLOSE`. The model does not capture this: it exits only through a tick's call to `stop()`.

- Clip playback itself (`StandardAudio`: decoding, `isPlaying`, `resetFramePosition`, `start`) is not part of this model. A clip is a playing flag and a position. Clips never finish on their own here: in Java, playback ends on the audio system's threads.
- The `buffers` argument sizes the Java `HashMap` and has no observable effect, so the model does not keep it.
- JavaLang.HashCode: each Dafny `char` counts as one UTF-16 unit. This is exact for characters in the Basic Multilingual Plane. Java hashes a character outside it as two surrogate units, and the model does not.
- Frame rates and periods are unbounded integers. In Java they are `int`, but `1000 / fps` always fits, so no wrap-around is involved.
- The window (JFrame size, title, layout, `addComponent`, `packComponents`, `setVisible`, `isVisible`, `getFrame`) is GUI glue and is left out. `repaint`, `dispose` and `System.exit` appear only as logged events.
- `SwingUtilities.invokeLater` is left out. The `start()` that the constructor schedules is a separate call to `Start`.
- The user's `run()` hook is abstract in Java. It appears only as a `Run` event, so any state changes a subclass's `run()` makes are not modelled.
- Timer timing is not modelled. A tick is an explicit `Tick(k)` call for any timer `k` that is still started. Delays are recorded, but not how they map to wall-clock time.
- Nothing can happen after `System.exit(0)`, so every mutator requires that the application has not exited.
- `synchronized` and the event-dispatch thread are concurrency and are not modelled. The model treats calls as running one at a time.
- `StandardAnimationView`, `DeathListener` and `FollowTheMouseGameTest` are rendering, an interface with no behaviour and demo wiring, and are not part of this model.
