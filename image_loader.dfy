/**
 * The sequential core of `ImageLoader`: one-time initialisation of the shared
 * state, the memory -> disk -> network lookup in `loadImage`, the dispatcher's
 * LIFO take, the success path of a download task, and the UI-thread delivery
 * that honours a result only while the view is still tagged with its key.
 *
 * The Java class keeps this state in static fields; here it is one object of
 * class `ImageLoader`. The two cache tiers are plain maps (their LRU eviction is
 * not modelled). Calls into the platform (MD5, bitmap decoding, JPEG encoding,
 * the window size) are fields of a `Platform` value fixed at construction;
 * network and disk I/O failures are parameters of the methods that meet them.
 * Where the Java code would throw a `NullPointerException` the methods report a
 * `LoadThrew` or `TaskThrew` outcome and leave the state as the exception would.
 */
module Loader {
  import opened Wrappers
  import opened JavaInt
  import opened HexKey
  import opened SampleSize
  import opened TaskDeque

  /** A cache key: the hex rendering of an MD5 digest. */
  type Key = string

  type Bytes = seq<Byte>

  /** The persisted entries `DiskLruCache.open` finds for the current app version. */
  type DiskEntries = map<Key, Bytes>

  /** A decoded bitmap, as far as the core cares about it. */
  datatype Bitmap = Bitmap(width: int, height: int, pixels: seq<int>)

  /** The platform calls the core makes but does not implement. */
  datatype Platform = Platform(
    digest: string -> seq<Byte>,                // MessageDigest "md5" of the path's bytes
    decode: seq<Byte> -> Option<Bitmap>,        // BitmapFactory.decodeStream; None for null
    decodeBounds: seq<Byte> -> (int, int),      // outWidth, outHeight with inJustDecodeBounds
    decodeSampled: (seq<Byte>, int) -> Option<Bitmap>,  // decodeByteArray with inSampleSize
    compressJpeg: Bitmap -> seq<Byte>,          // Bitmap.compress(JPEG, 100, ...)
    windowWidth: int,                           // CommonUtil.getWindowWidth
    windowHeight: int)                          // CommonUtil.getWindowHeight

  /** `getMD5`: the key under which both cache tiers store the image at `path`. */
  function KeyOf(p: Platform, path: string): (k: Key)
    ensures |p.digest(path)| <= |k| <= 2 * |p.digest(path)|
    ensures forall i :: 0 <= i < |k| ==> IsHexChar(k[i])
  {
    RenderLength(p.digest(path));
    RenderHexChars(p.digest(path));
    Render(p.digest(path))
  }

  /** The widget an image is loaded into, with its identity tag. */
  class ImageView {
    var tag: Option<Key>
    var shown: Option<Bitmap>
    var width: int      // measured size; not positive before layout
    var height: int

    constructor (width: int, height: int)
      ensures this.width == width && this.height == height
      ensures tag == None && shown == None
    {
      this.width, this.height := width, height;
      tag, shown := None, None;
    }
  }

  /** A pending download: the view, the path to fetch, and its key. */
  datatype FetchTask = FetchTask(target: ImageView, path: string, key: Key)

  /** `TaskBean`: a finished download on its way to the UI thread. */
  datatype DeliveryMessage = DeliveryMessage(target: ImageView, key: Key, image: Bitmap)

  datatype LoadOutcome =
    | MemoryHit     // shown from the memory cache
    | DiskHit       // decoded from the disk cache, promoted, shown
    | Enqueued      // one download task added at the tail of the deque
    | LoadThrew     // a NullPointerException escaped loadImage

  /** What the network side of a task produced. */
  datatype Download =
    | ConnectFailed            // URL or connection IOException, caught in run
    | ReadFailed               // IOException while reading, caught in compress
    | Downloaded(body: seq<Byte>)

  datatype TaskOutcome =
    | Delivered        // caches written, one delivery message produced
    | FetchFailed      // nothing written, nothing delivered
    | TaskThrew        // a NullPointerException ended the task
    | DiskWriteFailed  // IOException while writing the disk entry

  /**
   * The memory budget as written: `(int) maxMemory`, a narrowing cast from
   * `long`, then `/ 4` on Java ints. For heaps below 2 GiB it is a quarter of
   * the heap, rounded down.
   */
  function MemoryBudgetAsWritten(maxMemory: int): (b: int)
    requires 0 <= maxMemory <= LONG_MAX
    ensures maxMemory <= INT_MAX ==> 0 <= 4 * b <= maxMemory < 4 * b + 4
  {
    DivTrunc(ToInt(maxMemory), 4)
  }

  /** At a heap limit of exactly 2 GiB the cast wraps and the budget is negative. */
  lemma BudgetWrapsAtTwoGiB()
    ensures MemoryBudgetAsWritten(0x8000_0000) == -0x2000_0000
  {
    assert ToInt(0x8000_0000) == INT_MIN;
  }

  /**
   * The budget the code evidently means: a quarter of the heap limit, capped at
   * the largest `int` that `LruCache` can take.
   */
  function MemoryBudget(maxMemory: int): (b: int)
    requires 0 <= maxMemory <= LONG_MAX
    ensures 0 <= b <= INT_MAX
    ensures 4 * b <= maxMemory
    ensures maxMemory >= 4 ==> b >= 1
    ensures maxMemory / 4 <= INT_MAX ==> maxMemory < 4 * b + 4
    ensures maxMemory / 4 > INT_MAX ==> b == INT_MAX
    ensures maxMemory <= INT_MAX ==> b == MemoryBudgetAsWritten(maxMemory)
  {
    if maxMemory / 4 <= INT_MAX then maxMemory / 4 else INT_MAX
  }

  /**
   * Promotion of a disk hit into memory: the entry is written only when the key
   * is absent, so an entry already there is never replaced.
   */
  function Promote(memory: map<Key, Bitmap>, key: Key, image: Bitmap): (m: map<Key, Bitmap>)
    ensures key in m && m.Keys == memory.Keys + {key}
    ensures key in memory ==> m[key] == memory[key]
    ensures key !in memory ==> m[key] == image
    ensures forall k :: k in memory && k != key ==> m[k] == memory[k]
  {
    if key in memory then memory else memory[key := image]
  }

  /** Two promotions of one key agree: the first one wins and the second changes nothing. */
  lemma PromoteIsIdempotent(memory: map<Key, Bitmap>, key: Key, a: Bitmap, b: Bitmap)
    ensures Promote(Promote(memory, key, a), key, b) == Promote(memory, key, a)
  {
  }

  /**
   * The UI handler's decision: the view shows the delivered image when its tag
   * equals the message's key, and keeps what it showed otherwise.
   */
  function Deliver(shown: Option<Bitmap>, tag: Key, msg: DeliveryMessage): (r: Option<Bitmap>)
    ensures r == shown || r == Some(msg.image)
    ensures tag == msg.key ==> r == Some(msg.image)
    ensures r != shown ==> tag == msg.key
  {
    if tag == msg.key then Some(msg.image) else shown
  }

  /** `uiHandler.handleMessage`: apply one delivery to its target view. */
  method HandleMessage(msg: DeliveryMessage)
    requires msg.target.tag.Some?   // getTag().toString() would throw on a null tag
    modifies msg.target`shown
    ensures msg.target.shown == Deliver(old(msg.target.shown), msg.target.tag.value, msg)
  {
    var iv := msg.target;
    if iv.tag.value == msg.key {
      iv.shown := Some(msg.image);
    }
  }

  /**
   * The subsampling factor `compress` picks for a downloaded body: the decoded
   * bounds against the view's measured size, or the window's while unmeasured.
   */
  function SampleFor(p: Platform, body: Bytes, viewWidth: int, viewHeight: int): (k: int)
    requires p.windowWidth > 0 && p.windowHeight > 0
    ensures var (bw, bh) := p.decodeBounds(body);
      var (w, h) := (Viewport(viewWidth, p.windowWidth), Viewport(viewHeight, p.windowHeight));
      && k >= 1
      && Fits(k, bw, bh, w, h)
      && (forall j :: 1 <= j < k ==> !Fits(j, bw, bh, w, h))
      && (bw < w && bh < h ==> k == 1)
  {
    var (bw, bh) := p.decodeBounds(body);
    DecodeSampleSize(bw, bh, viewWidth, viewHeight, p.windowWidth, p.windowHeight)
  }

  /**
   * `compress`: the image a download yields, None for Java's null. A failed
   * read is caught inside `compress` and yields null; a body is decoded at the
   * factor `SampleFor` picks, and the decoder may still return null.
   */
  function Compress(p: Platform, download: Download, viewWidth: int, viewHeight: int): (r: Option<Bitmap>)
    requires p.windowWidth > 0 && p.windowHeight > 0
    ensures !download.Downloaded? ==> r == None
    ensures download.Downloaded? ==>
      r == p.decodeSampled(download.body, SampleFor(p, download.body, viewWidth, viewHeight))
  {
    match download
    case Downloaded(body) =>
      var k := SampleFor(p, body, viewWidth, viewHeight);
      p.decodeSampled(body, k)
    case _ => None
  }

  class ImageLoader {
    const platform: Platform
    var isFirstTime: bool
    var memoryCreated: bool            // MemoryCache != null
    var memoryBudget: int
    var memory: map<Key, Bitmap>       // MemoryCache
    var diskOpen: bool                 // DiskCache != null
    var disk: DiskEntries              // DiskCache, one value per key
    var tasks: seq<FetchTask>          // the deque, head first

    ghost predicate Valid()
      reads this
    {
      platform.windowWidth > 0 && platform.windowHeight > 0 &&
      (!isFirstTime ==> memoryCreated) &&
      (!memoryCreated ==> memory == map[]) &&
      (!diskOpen ==> disk == map[])
    }

    /** The state before the first `init`: nothing created yet. */
    constructor (platform: Platform)
      requires platform.windowWidth > 0 && platform.windowHeight > 0
      ensures Valid() && this.platform == platform
      ensures isFirstTime && !memoryCreated && !diskOpen
      ensures memory == map[] && disk == map[] && tasks == []
    {
      this.platform := platform;
      isFirstTime := true;
      memoryCreated, memoryBudget, memory := false, 0, map[];
      diskOpen, disk := false, map[];
      tasks := [];
    }

    /**
     * `init`. After the first call every later call changes nothing. The first
     * creates the memory cache with a quarter of the heap (if none exists), opens
     * the disk cache (if none is open; `openResult` is the result of
     * `DiskLruCache.open`, None for its IOException) and starts an empty deque.
     */
    method Init(maxMemory: int, openResult: Option<DiskEntries>)
      requires Valid()
      requires 4 <= maxMemory <= LONG_MAX
      modifies this
      ensures Valid()
      ensures !old(isFirstTime) ==> unchanged(this)
      ensures old(isFirstTime) ==> !isFirstTime && memoryCreated && tasks == []
      ensures old(isFirstTime) && old(memoryCreated) ==>
        memory == old(memory) && memoryBudget == old(memoryBudget)
      ensures old(isFirstTime) && !old(memoryCreated) ==>
        memory == map[] && memoryBudget == MemoryBudget(maxMemory) && memoryBudget >= 1
      ensures old(isFirstTime) && old(diskOpen) ==> diskOpen && disk == old(disk)
      ensures old(isFirstTime) && !old(diskOpen) ==>
        diskOpen == openResult.Some? && disk == (if openResult.Some? then openResult.value else map[])
    {
      if !isFirstTime {
        return;
      }
      if !memoryCreated {
        memoryCreated, memoryBudget, memory := true, MemoryBudget(maxMemory), map[];
      }
      if !diskOpen {
        if openResult.Some? {
          diskOpen, disk := true, openResult.value;
        }
      }
      tasks := [];
      isFirstTime := false;
    }

    /**
     * `loadImage`. The view is tagged with the path's key before anything else.
     * A memory hit is shown at once. Otherwise the disk cache is asked (a read
     * IOException, `diskReadFails`, counts as a miss); a disk hit is decoded,
     * promoted into memory only if the key is absent, and shown. A miss in both
     * tiers appends exactly one download task at the tail of the deque. Before
     * `init` there is no memory cache, and the first lookup throws.
     */
    method LoadImage(iv: ImageView, path: string, diskReadFails: bool) returns (outcome: LoadOutcome)
      requires Valid()
      modifies this`memory, this`tasks, iv`tag, iv`shown
      ensures Valid()
      ensures iv.tag == Some(KeyOf(platform, path))
      ensures var key := KeyOf(platform, path);
        if !memoryCreated then
          outcome == LoadThrew && iv.shown == old(iv.shown)
          && memory == old(memory) && tasks == old(tasks)
        else if key in old(memory) then
          outcome == MemoryHit && iv.shown == Some(old(memory)[key])
          && memory == old(memory) && tasks == old(tasks)
        else if !diskOpen then
          outcome == LoadThrew && iv.shown == old(iv.shown)
          && memory == old(memory) && tasks == old(tasks)
        else if !diskReadFails && key in disk then
          match platform.decode(disk[key])
          case Some(image) =>
            outcome == DiskHit && iv.shown == Some(image)
            && memory == Promote(old(memory), key, image) && tasks == old(tasks)
          case None =>
            outcome == LoadThrew && iv.shown == old(iv.shown)
            && memory == old(memory) && tasks == old(tasks)
        else
          outcome == Enqueued && iv.shown == old(iv.shown) && memory == old(memory)
          && tasks == old(tasks) + [FetchTask(iv, path, key)]
    {
      var key := ByteToString(platform.digest(path));
      iv.tag := Some(key);
      if !memoryCreated {
        return LoadThrew;   // MemoryCache.get before init
      }
      if key in memory {
        iv.shown := Some(memory[key]);
        return MemoryHit;
      }
      if !diskOpen {
        return LoadThrew;   // DiskCache.get on a cache that failed to open
      }
      if !diskReadFails && key in disk {
        var image := platform.decode(disk[key]);
        if image.None? {
          return LoadThrew; // MemoryCache.put(key, null)
        }
        memory := Promote(memory, key, image.value);
        iv.shown := image;
        return DiskHit;
      }
      tasks := tasks + [FetchTask(iv, path, key)];
      outcome := Enqueued;
    }

    /**
     * The dispatcher's `tasks.takeLast()`: the most recently added task. On an
     * empty deque the Java call blocks; here nothing is taken.
     */
    method TakeTask() returns (task: Option<FetchTask>)
      modifies this`tasks
      ensures old(tasks) == [] ==> task == None && tasks == []
      ensures old(tasks) != [] ==>
        task == Some(TakeLast(old(tasks)).0) && tasks == TakeLast(old(tasks)).1
    {
      if tasks == [] {
        return None;
      }
      task := Some(tasks[|tasks| - 1]);
      tasks := tasks[..|tasks| - 1];
    }

    /**
     * A download task's `run` after the network step. The body is decoded at the
     * factor `SampleFor` picks; the image then overwrites the memory entry for the
     * key unconditionally, its JPEG encoding is written to disk, and one delivery
     * message (view, key, image) is produced. A failed connection writes nothing;
     * a failed read or an undecodable body makes `compress` return null, so
     * `MemoryCache.put` throws before anything is written, as it does before
     * `init` has created the memory cache; a disk write
     * IOException (`diskWriteFails`) leaves the memory write in place and
     * produces no message.
     */
    method RunTask(task: FetchTask, download: Download, diskWriteFails: bool)
      returns (outcome: TaskOutcome, msg: Option<DeliveryMessage>)
      requires Valid()
      modifies this`memory, this`disk
      ensures Valid()
      ensures var result := Compress(platform, download, task.target.width, task.target.height);
        if download.ConnectFailed? then
          outcome == FetchFailed && msg == None && memory == old(memory) && disk == old(disk)
        else if result.None? || !memoryCreated then
          outcome == TaskThrew && msg == None && memory == old(memory) && disk == old(disk)
        else
          memory == old(memory)[task.key := result.value] &&
          if !diskOpen then
            outcome == TaskThrew && msg == None && disk == old(disk)
          else if diskWriteFails then
            outcome == DiskWriteFailed && msg == None && disk == old(disk)
          else
            outcome == Delivered
            && disk == old(disk)[task.key := platform.compressJpeg(result.value)]
            && msg == Some(DeliveryMessage(task.target, task.key, result.value))
    {
      msg := None;
      if download.ConnectFailed? {
        outcome := FetchFailed;
        return;
      }
      var result := Compress(platform, download, task.target.width, task.target.height);
      if result.None? || !memoryCreated {
        outcome := TaskThrew;   // MemoryCache.put(key, null), or on a null MemoryCache
        return;
      }
      memory := memory[task.key := result.value];
      if !diskOpen {
        outcome := TaskThrew;   // DiskCache.edit on a cache that failed to open
      } else if diskWriteFails {
        outcome := DiskWriteFailed;
      } else {
        disk := disk[task.key := platform.compressJpeg(result.value)];
        msg := Some(DeliveryMessage(task.target, task.key, result.value));
        outcome := Delivered;
      }
    }
  }

  /**
   * A view asks for `first`, is reassigned to `second` before either download
   * runs, and the dispatcher serves `second` first. When the older download
   * completes and is delivered, the view keeps what it showed: the result for
   * the key it no longer carries is discarded.
   */
  method RetargetedViewDiscardsStaleResult(loader: ImageLoader, iv: ImageView,
                                           first: string, second: string, body: Bytes)
    returns (newest: FetchTask, oldest: FetchTask)
    requires loader.Valid() && !loader.isFirstTime && loader.diskOpen && loader.tasks == []
    requires KeyOf(loader.platform, first) != KeyOf(loader.platform, second)
    requires KeyOf(loader.platform, first) !in loader.memory && KeyOf(loader.platform, first) !in loader.disk
    requires KeyOf(loader.platform, second) !in loader.memory && KeyOf(loader.platform, second) !in loader.disk
    modifies loader, iv
    ensures newest == FetchTask(iv, second, KeyOf(loader.platform, second))
    ensures oldest == FetchTask(iv, first, KeyOf(loader.platform, first))
    ensures iv.tag == Some(KeyOf(loader.platform, second))
    ensures iv.shown == old(iv.shown)
    ensures |loader.tasks| == 0
  {
    ghost var k1, k2 := KeyOf(loader.platform, first), KeyOf(loader.platform, second);
    var o1 := loader.LoadImage(iv, first, false);
    assert loader.tasks == [FetchTask(iv, first, k1)];
    assert k2 !in loader.memory && k2 !in loader.disk;
    var o2 := loader.LoadImage(iv, second, false);
    assert loader.tasks == [FetchTask(iv, first, k1), FetchTask(iv, second, k2)];
    var taken := loader.TakeTask();
    assert taken == Some(FetchTask(iv, second, k2));
    newest := taken.value;
    taken := loader.TakeTask();
    assert taken == Some(FetchTask(iv, first, k1));
    oldest := taken.value;
    var outcome, msg := loader.RunTask(oldest, Downloaded(body), false);
    assert msg.Some? ==> msg.value.target == iv && msg.value.key == k1;
    if msg.Some? {
      HandleMessage(msg.value);
    }
  }
}
