# ImageLoader core, modelled in Dafny

`ImageLoader` loads an image for an Android `ImageView` through two cache
tiers. It first asks an in-memory `LruCache` of decoded bitmaps, then an
on-disk `DiskLruCache` of JPEG bytes. Only when both miss does it queue a
download task. A dispatcher thread hands the queued tasks to a fixed pool,
newest first. A finished task writes both tiers and posts the bitmap to the
UI thread. The UI thread shows it only if the view is still tagged with the
image's key. The key is the MD5 digest of the image path, rendered as hex.

This project models the sequential logic of that class:

- `JavaInt` (`java_int.dfy`): Java's `(int)` narrowing cast and `/` on ints.
- `SampleSize` (`sample_size.dfy`): the subsampling factor chosen before the
  real decode, with the fallback from the view's measured size to the window
  size.
- `HexKey` (`hex_key.dfy`): `byteToString`, the loop that renders a digest as
  hex without zero padding. It comes with the length, alphabet and collision
  properties of the result.
- `TaskDeque` (`task_deque.dfy`): the deque as the dispatcher uses it.
  `add` appends at the tail and `takeLast` removes from the tail, so tasks are
  served in reverse order of submission.
- `Loader` (`image_loader.dfy`): the static state of the Java class as one
  object of class `ImageLoader`. It holds the memory map, the disk map, the
  task deque and the first-time flag. `ImageView` is a class with a tag, the
  image shown and the measured size. The methods are `Init`, `LoadImage`,
  `TakeTask` (the dispatcher's take), `RunTask` (a download task after the
  network step) and `HandleMessage` (the UI handler).

Calls into the platform are fields of a `Platform` value given to the
loader's constructor: the MD5 digest, `BitmapFactory` decoding (bounds only,
at a factor, from a stream), JPEG encoding and the window size. Network and
disk I/O results are method parameters. `Download` says what the connection
and the read produced. `diskReadFails` and `diskWriteFails` stand for the
disk cache's `IOException`s. Where the Java code would throw a
`NullPointerException`, the method reports a `LoadThrew` or `TaskThrew`
outcome and leaves the state as the exception would. That happens before
`init` has created the memory cache, when the disk cache failed to open, and
when a null bitmap reaches `LruCache.put`.

The source computes `Math.ceil(bitmapWidth*1.0/width)` in `double`. For
operands that fit in 32 bits the double quotient never crosses an integer
boundary, so the model uses exact integer ceiling division (`CeilDiv`). The
test `bitmapWidth*1.0/width >= 1` is `bitmapWidth >= width` for the same reason.
The decoded bounds, the view's measured size and the window size are Java
`int`s, while the model lets them be any integer. The model agrees with the
source on the 32-bit range the platform can return.

The key has no fixed length: `Integer.toHexString` does not pad bytes below
16 with a zero (ImageLoader.java:315). `HexKey.DigestsCollide` shows that
distinct 16-byte digests can therefore share a key.

A disk cache that fails to open stays null, so the next memory miss throws a
`NullPointerException` at ImageLoader.java:154. The loader does not fall back
to memory alone; `LoadImage` reports `LoadThrew` in that case. A failed task
never releases its admission permit (see "Left out").

## Model

| member | source | states |
|---|---|---|
| `JavaInt.ToInt` | ImageLoader.java:78 | the `(int)` cast of a `long` is in int range, congruent to its input modulo 2^32, and the identity on values that already fit |
| `JavaInt.DivTrunc` | ImageLoader.java:80 | Java `/` by a positive divisor rounds toward zero: the remainder has the dividend's sign and is smaller than the divisor |
| `SampleSize.Viewport` | ImageLoader.java:246-253 | the viewport dimension is positive; it is the measured size unless that is not positive, in which case it is the window size |
| `SampleSize.CeilDiv` | ImageLoader.java:256 | the rounded-up ratio is the least `q` with `a <= q*b` |
| `SampleSize.SampleSize` | ImageLoader.java:254-257 | the factor is at least 1, it makes the source fit the viewport in both dimensions, no smaller factor of at least 1 does, and it is exactly 1 when the source is smaller than the viewport in both dimensions (never upsample) |
| `SampleSize.DecodeSampleSize` | ImageLoader.java:244-257 | the factor is `SampleSize` over the viewport after each dimension falls back on its own, so all of its properties hold there; it uses the measured size when both dimensions are positive and the window size when neither is |
| `HexKey.Unsigned` | ImageLoader.java:315 | `0xFF & b` lies in 0..255 and is congruent to the signed byte modulo 256 |
| `HexKey.ToHexString` | ImageLoader.java:315 | `Integer.toHexString` of a byte value is one lower-case hex digit below 16 and two otherwise, with no leading zero, and reading it back as hex gives the value |
| `HexKey.ByteToString` | ImageLoader.java:312-319 | the loop's result is the concatenation of each byte's hex string; its length is between n and 2n for n bytes, and it holds only lower-case hex digits |
| `HexKey.RenderLength` | ImageLoader.java:312-319 | the key's length is the number of bytes plus the number of bytes whose unsigned value is 16 or more |
| `HexKey.RenderHexChars` | ImageLoader.java:315-316 | every character of a rendered key is a lower-case hex digit |
| `HexKey.RenderAppend` | ImageLoader.java:313-318 | rendering a concatenation renders each part in turn |
| `HexKey.DigestsCollide` | ImageLoader.java:312-319 | distinct digests of equal length render to the same key whenever they differ by `01 23` against `12 03` |
| `TaskDeque.TakeLast` | ImageLoader.java:116 | `takeLast` returns the tail element, and adding it back to what remains gives the deque it was taken from |
| `TaskDeque.DrainIsReversed` | ImageLoader.java:116 | repeated `takeLast` hands out the tasks in the reverse of their submission order |
| `TaskDeque.DrainIsPermutation` | ImageLoader.java:116 | repeated `takeLast` hands out every submitted task exactly once |
| `TaskDeque.LastInFirstOut` | ImageLoader.java:169 | tasks submitted as T1, T2, T3 are taken as T3, T2, T1 |
| `Loader.KeyOf` | ImageLoader.java:300-310 | the key of a path is the hex rendering of its digest: between one and two characters per digest byte, all lower-case hex |
| `Loader.MemoryBudgetAsWritten` | ImageLoader.java:78-80 | as written, the budget is a quarter of the heap limit, rounded down, whenever the limit fits in an int |
| `Loader.BudgetWrapsAtTwoGiB` | ImageLoader.java:78-80 | as written, a heap limit of 2^31 bytes gives the budget -2^29 |
| `Loader.MemoryBudget` | ImageLoader.java:78-80 | the corrected budget is a quarter of the heap limit, rounded down, capped at the largest int (exactly `INT_MAX` when a quarter exceeds it): never negative, at least 1 for a limit of 4 or more, and equal to the as-written value below 2 GiB |
| `Loader.Promote` | ImageLoader.java:160-161 | a disk hit adds the key to memory only if it is absent; an entry already there is kept, and other keys are untouched |
| `Loader.PromoteIsIdempotent` | ImageLoader.java:160-161 | a second promotion of the same key changes nothing |
| `Loader.Deliver` | ImageLoader.java:103-105 | the delivered image is shown when the view's tag equals the message's key; otherwise the view keeps what it showed |
| `Loader.HandleMessage` | ImageLoader.java:99-106 | the UI handler changes the view's image iff the tag matches the message key |
| `Loader.SampleFor` | ImageLoader.java:240-257 | over the decoded bounds and the viewport after each dimension falls back on its own, the factor is at least 1, fits, no smaller factor of at least 1 fits, and it is 1 when the source is smaller in both dimensions |
| `Loader.Compress` | ImageLoader.java:230-265 | a failed read yields null; a body is decoded at the factor `SampleFor` picks |
| `Loader.ImageLoader.constructor` | ImageLoader.java:45-66 | before the first `init` no cache exists, the deque is empty and the first-time flag is set |
| `Loader.ImageLoader.Init` | ImageLoader.java:68-133 | once the first-time flag is clear nothing changes; the first call creates the memory cache with a quarter of the heap only if none exists, opens the disk cache only if none is open, starts an empty deque and clears the flag |
| `Loader.ImageLoader.LoadImage` | ImageLoader.java:140-169 | the view is tagged with the key first; a memory hit is shown with memory and deque unchanged; a disk hit is promoted only if absent and shown, with no task; a double miss appends exactly one task at the tail; before `init`, on a disk cache that failed to open, or on an undecodable disk entry it throws with nothing but the tag changed |
| `Loader.ImageLoader.TakeTask` | ImageLoader.java:116 | the dispatcher takes the most recently added task and removes it from the tail |
| `Loader.ImageLoader.RunTask` | ImageLoader.java:172-199 | on success the memory entry is overwritten unconditionally, the disk entry is written, and one message (view, key, image) is produced; a failed connection, a null bitmap or a missing memory cache writes nothing; a disk cache that failed to open or a disk write failure keeps the memory write and produces no message |
| `Loader.RetargetedViewDiscardsStaleResult` | ImageLoader.java:99-106 | a view reassigned to a second image before the first download runs: the dispatcher takes the second task first and the first task second, and the view keeps its image when the first result is delivered |

## Left out

- Threads and their synchronisation: the `Handler`/`Looper` message threads, the `ExecutorService` pool, the blocking of `LinkedBlockingDeque`, and the `taskLock` and `createLock` semaphores. The model runs the steps one at a time.
- `taskLock.release()` sits on the success path of a task, not in its `finally` block, so a failed task never returns its permit. With N cores the semaphore starts with N permits. After N failures every later `taskLock.acquire()` (ImageLoader.java:117) waits until the task just submitted succeeds. When that task fails too, the dispatcher blocks for good. The permit count is not modelled.
- The signal `pollHandler.sendEmptyMessage(101)` after each enqueue, and the wait on `createLock` before it. These only wake the dispatcher.
- `Loader.ImageLoader.TakeTask`: on an empty deque `takeLast` blocks; the model returns `None` instead.
- The network fetch and stream cleanup. A `Download` value stands for their result. The byte-by-byte copy of the stream in `compress` is not modelled; the body arrives as a sequence of bytes.
- `BitmapFactory` decoding, `Bitmap.compress` to JPEG and the MD5 `MessageDigest`. These are uninterpreted fields of `Platform`. `getMD5`'s catch of `NoSuchAlgorithmException` is left out, because MD5 is always available.
- LRU eviction and recency in `LruCache` and `DiskLruCache`, and the disk cache's version check. Both tiers are plain maps. `Init` receives the entries `DiskLruCache.open` finds as a value.
- `Loader.ImageLoader.RunTask`: a disk write `IOException` is taken to leave the disk entry unchanged. The model does not separate a failure in `commit` from one in `flush`. `DiskLruCache.edit` returning null while another edit of the same key is open is a concurrency case and is left out.
- `Loader.ImageLoader.Init` requires a heap limit of at least 4 bytes. Smaller limits make `LruCache` reject a budget of 0, which no real heap reaches.
- `Loader.ImageLoader.Init` adopts the corrected budget `Loader.MemoryBudget`, not the `(int)` cast at ImageLoader.java:78-80. The source differs for heap limits of 2^31 bytes or more. At 2^31 and at `Long.MAX_VALUE` the cast gives a budget of 0 or less, `new LruCache` throws, and `isFirstTime` stays set. At 2^32+4 the cast gives a budget of 1. See "Findings".
- The window width and height are assumed positive (`Loader.ImageLoader.Valid`). With a window width of 0 and an unmeasured view, the `double` division at ImageLoader.java:256 gives Infinity for a positive source width, and the factor becomes the largest int. That case is not modelled.
- `getAppVersion` and `getCacheDir`: these are Android context lookups.
- `Loader.HandleMessage` requires the view to carry a tag. In the model only `LoadImage` sets tags, and it does so before any task for the view exists.

## Findings

| source | as written | input that shows it | evidently intended | confidence | as-written member | corrected member |
|---|---|---|---|---|---|---|
| ImageLoader.java:78-80 | `(int) Runtime.getRuntime().maxMemory()` narrows the `long` heap limit to 32 bits before dividing by 4 | a heap limit of 2^31 bytes gives a budget of -2^29, which `LruCache` rejects | a quarter of the heap limit, capped at the largest int | low: not executed; per-app heaps rarely reach 2 GiB | `Loader.BudgetWrapsAtTwoGiB` | `Loader.MemoryBudget` |
