# membuf in Dafny

A model of `membuf`, a Linux character device backed by one resizable
in-memory byte buffer. The driver keeps two globals, `buffer` and
`buf_size`, and offers four operations on them:

- `reallocate_buffer` replaces the buffer with a freshly allocated,
  zero-filled one of the requested size, copies the common prefix of the old
  buffer into it and frees the old one; if the allocation fails nothing
  changes.
- `buf_size_store` (the sysfs `buf_size` attribute, written) reads a leading
  `%d` from the text: nothing readable is a no-op returning 0, a negative
  number resets the size to `BUF_SIZE_DEFAULT` (4096) and returns 0, any other
  number becomes the new size and the whole count is returned; a failed
  allocation returns `-ENOMEM`.
- `buf_size_show` (the attribute, read) prints the size as `"%d\n"`.
- `membuf_read` / `membuf_write` copy `min(size - off, len)` bytes between
  the buffer and the caller at the caller's file offset and advance it; an
  offset equal to the size returns 0, one beyond it returns `-ESPIPE` (read)
  or `-ENOSPC` (write), and a failed user copy returns `-EFAULT`.

Files:

- `membuf.dfy`, module `Membuf`: class `Device` with the fields `bufSize`
  and `buffer: array<byte>` (invariant `buffer.Length == bufSize`), and one
  method per driver operation. `ReallocateBuffer` allocates a new array,
  zero-fills it and copies the prefix into it before swapping it in;
  `Write` overwrites the array in place; `Read` and `BufSizeShow` change
  nothing. Each method is proved against a function of `MembufSpec`.
- `membuf_spec.dfy`, module `MembufSpec`: the buffer as a `seq<byte>` and
  what each operation does to it (`Resized`, `ReadSpec`, `WriteSpec`,
  `StoreSpec`, `ShowText`), with the lemmas about them: the resize laws,
  read-after-write, consecutive reads and writes at the advancing offset,
  the store cases, and that storing the shown size changes nothing.
- `decimal_text.dfy`, module `DecimalText`: the kernel's `sscanf("%d")`
  (skip white space, an optional `-`, at least one digit, the longest run of
  digits, the value stored into a 32-bit `int` modulo 2^32) and
  `sprintf("%d")`, with the proof that scanning the printed form of any
  `int` gives that `int` back.
- `wrappers.dfy`, module `Wrappers`: `Option`.

What the environment decides is a parameter: `allocOk` says whether kmalloc
succeeds; `uncopied` is what `copy_to_user` / `copy_from_user` return (the
number of bytes they could not copy; 0 on success, never more than asked
for, so the model caps it at the transfer length); `src` is the caller's
bytes and `text` the attribute text, whose length is the `count` passed to
`buf_size_store`. The caller's offset is passed in and the new offset
returned, as `*off` is updated through the pointer.

Two behaviours of the code are worth stating outright. A negative size
resizes the buffer to 4096 bytes, keeps the first `min(4096, old size)` bytes
and returns 0, not the count. The buffer starts at size 0; init's
`reallocate_buffer(BUF_SIZE_DEFAULT)` gives it its first 4096 bytes.

## Model

| member | source | states |
|---|---|---|
| `Membuf.Device.constructor` | membuf.c:25-26 | the initial state: `buf_size == 0` and an empty buffer |
| `Membuf.Device.ReallocateBuffer` | membuf.c:34-51 | on success the size is the requested one and the contents are `Resized(old contents, n)` in a fresh array; on allocation failure it returns false and size, buffer and contents are exactly as before |
| `Membuf.Device.BufSizeShow` | membuf.c:53-60 | the text is the size's decimal digits followed by `\n`, the result is its length, and scanning the text with `%d` gives the size back |
| `Membuf.Device.BufSizeStore` | membuf.c:62-90 | result and new contents are those of `StoreSpec`; when nothing is parsed or the result is an error, the size and the buffer are untouched |
| `Membuf.Device.Read` | membuf.c:92-122 | result, new offset and delivered bytes are those of `ReadSpec` on the current contents; nothing in the device changes |
| `Membuf.Device.Write` | membuf.c:124-155 | result, new offset and new contents are those of `WriteSpec` on the old contents; the size never changes |
| `MembufSpec.Resized` | membuf.c:41-44 | the new buffer has exactly `n` bytes, the first `min(n, old size)` equal to the old ones and every later byte zero |
| `MembufSpec.ResizedToSameSize` | membuf.c:41-48 | resizing to the current size leaves the contents unchanged |
| `MembufSpec.ResizedIdempotent` | membuf.c:41-48 | resizing twice to the same size is resizing once |
| `MembufSpec.ResizedThrough` | membuf.c:41-48 | a resize through an intermediate size `a` ends where a direct resize to `b` does if and only if every byte in `[a, min(b, old size))` is zero: shrinking loses exactly those bytes |
| `MembufSpec.ReadSpec` | membuf.c:92-122 | offset equal to the size: 0, offset kept, nothing delivered; offset beyond: `-ESPIPE`, offset kept; otherwise success returns `min(size - off, len)`, advances the offset by it without passing the size and delivers exactly `buffer[off..newOff]`; `-EFAULT` exactly when the copy reports uncopied bytes of a non-empty transfer, offset kept, with only a strict prefix of the window delivered |
| `MembufSpec.Landed` | membuf.c:143-147 | the window a faulting `copy_from_user` leaves: the source's first `n - u` bytes followed by `u` zeros |
| `MembufSpec.Overwritten` | membuf.c:143 | same length as the buffer; the bytes from `off` on, as many as `w` holds, come from `w`, all others are the old ones |
| `MembufSpec.WriteSpec` | membuf.c:124-155 | the size never changes; offset equal to the size: 0 and nothing changes; beyond: `-ENOSPC` and nothing changes; success returns `min(size - off, len)`, advances the offset by it and overwrites exactly that window with the first bytes of the source; `-EFAULT` exactly when the copy reports uncopied bytes of a non-empty transfer, offset kept; in every case the bytes outside the window are unchanged |
| `MembufSpec.ReadAfterWrite` | membuf.c:109-117 | bytes written at `off` where they fit are read back unchanged by a read of the same length at `off`, which advances the offset past them |
| `MembufSpec.WritesAtAdvancingOffset` | membuf.c:141-150 | two writes, the second at the offset the first returned, leave the buffer as one write of both sources together |
| `MembufSpec.ReadsAtAdvancingOffset` | membuf.c:109-117 | two reads, the second at the offset the first returned, deliver together what one read of both lengths delivers |
| `MembufSpec.PatternSurvivesResize` | membuf.c:41-48 | a pattern written at offset 0 keeps its first `min(pattern length, n)` bytes through a resize to `n`, and bytes beyond the old size come back zero |
| `MembufSpec.ShowText` | membuf.c:53-60 | the `"%d\n"` text of any `int` size ends in a newline, is, for a non-negative size, the decimal digits whose value is the size, starts with `0` only when it is `"0\n"`, and scans back with `%d` to that size |
| `MembufSpec.StoreSpec` | membuf.c:62-90 | the result is 0, `-ENOMEM` or the whole count; `-ENOMEM` leaves the contents as they were; the size afterwards is the old one or at most `INT_MAX`; returning the count of non-empty text means a non-negative size was parsed and the contents are resized to it |
| `MembufSpec.StoreUnparsable` | membuf.c:66-72 | text without a leading integer returns 0 and leaves the buffer unchanged |
| `MembufSpec.StoreAllocationFailure` | membuf.c:73-86 | in both resize branches a failed allocation returns `-ENOMEM` and leaves size and contents unchanged |
| `MembufSpec.StoreNonNegative` | membuf.c:82-89 | a parsed `v >= 0` returns the count, makes the size `v`, keeps the common prefix and zero-fills the rest |
| `MembufSpec.StoreNegative` | membuf.c:73-80 | a parsed negative value returns 0 (not the count), makes the size 4096, keeps the first `min(4096, old size)` bytes and zero-fills the rest |
| `MembufSpec.StoreShownSize` | membuf.c:53-90 | when the allocation succeeds, writing back the text `buf_size_show` produced returns its full length and leaves size and contents unchanged |
| `MembufSpec.StoreIdempotent` | membuf.c:62-90 | storing the same text twice (allocations succeeding) ends in the same state and result as storing it once |
| `DecimalText.IsSpace` | membuf.c:68 | the kernel's `isspace` (blank, controls 9 to 13, byte 0xA0); no white-space character is a digit or `-` |
| `DecimalText.ScanNumber` | membuf.c:68 | after white space, `%d` matches exactly when the text starts with a digit or with `-` and a digit; the value is negative only after a `-`, and never positive after one |
| `DecimalText.ScanInt` | membuf.c:67-68 | `sscanf(buf, "%d", &new_buf_size)` returns 1 exactly when the conversion matches; the stored value is always an `int`, and is the number read whenever that fits |
| `DecimalText.SkipSpaces` | membuf.c:68 | the `%d` conversion skips exactly the leading white-space characters: what remains is a suffix that does not start with white space, and everything dropped was white space |
| `DecimalText.LeadingDigits` | membuf.c:68 | the digits `%d` reads are all decimal digits |
| `DecimalText.LeadingDigitsIsLongestRun` | membuf.c:68 | those digits are a prefix of the text and the character after them, if any, is not a digit: the conversion reads the longest run |
| `DecimalText.Wrap32` | membuf.c:67-68 | storing into the 32-bit `new_buf_size` gives a value in the `int` range congruent to the parsed one modulo 2^32, and the parsed value itself when it fits |
| `DecimalText.FormatNat` | membuf.c:57 | `%d` of a non-negative number prints a non-empty digit string whose value is that number and which starts with `0` only when it is exactly `"0"` |
| `DecimalText.FormatInt` | membuf.c:57 | `%d` prints only digits for a non-negative number, and a `-` followed by digits for a negative one; it starts with `0` only when it is `"0"` |
| `DecimalText.LeadingDigitsOfRun` | membuf.c:68 | a run of digits followed by a non-digit is exactly what the conversion reads |
| `DecimalText.ScanFormatNegative` | membuf.c:57-68 | the printed form of a negative number, followed by a non-digit, scans back to that number |
| `DecimalText.ScanFormatNonNegative` | membuf.c:57-68 | the printed form of a non-negative number, followed by a non-digit, scans back to that number |
| `DecimalText.ScanFormatRoundTrip` | membuf.c:57-68 | scanning `%d` from the printed form of any `int`, followed by anything that does not start with a digit, gives that `int` |
| `DecimalText.PlusSignNotAccepted` | membuf.c:68 | text starting with `+` is not a number to the kernel's `%d` |
| `MembufSpec.ParamWriteAsWritten` | membuf.c:32 | as the code stands, a run-time write of `v` to the parameter makes `buf_size` equal to `v` and leaves the buffer as it was, so any new value other than the current size leaves `buf_size` out of step with the allocation |
| `MembufSpec.ParamWriteOverrunsBuffer` | membuf.c:32 | as written, a run-time write of 8192 to the `buf_size` parameter over a 4096-byte buffer leaves `buf_size` and the allocation out of step, and a read of 10 bytes at offset 4096 would then copy bytes past the allocation |
| `MembufSpec.ParamWrite` | membuf.c:32 | a parameter write that resizes as `buf_size_store` does keeps `buf_size` equal to the allocation and within `INT_MAX`, changes nothing when the allocation fails, and keeps the common prefix |
| `MembufSpec.ParamWriteIsStore` | membuf.c:32 | that corrected write leaves the buffer that storing the printed value through the attribute leaves |
| `Membuf.Device.SetBufSizeParam` | membuf.c:32 | the device updated by a parameter write is `ParamWrite` of its old state, so `buffer.Length == bufSize` still holds; the array is fresh after a successful allocation and the same one after a failed one |

## Left out

- Module init and exit and all device registration (membuf.c:157-248):
  kobject and sysfs attribute creation, chrdev region, cdev, class and
  device. They hold no state of the buffer; the only buffer effect of init,
  `reallocate_buffer(BUF_SIZE_DEFAULT)`, is a call of `ReallocateBuffer`.
- The reader-writer semaphore: it only makes each operation atomic, and each
  method here runs to completion with nothing interleaved.
- The `buf_size` module parameter (membuf.c:32): loading the module with a
  non-zero `buf_size` makes init's `reallocate_buffer` copy from a NULL
  buffer; the model starts at size 0 with an empty buffer and does not
  model that path. The parameter is also writable at run time (mode 0660),
  and such a write changes `buf_size` without reallocating the buffer or
  taking the semaphore, after which reads, writes and the next reallocation
  reach past the allocation. The device model excludes that write: its
  parameter write is the corrected `SetBufSizeParam` (see "## Findings"),
  and the write as the code does it exists only as the value-level
  `ParamWriteAsWritten`.
- The kernel allocator: kmalloc is the `allocOk` flag (so a size the
  allocator cannot serve, or kmalloc(0), is whatever the flag says), and
  kfree of the old buffer is the swap of the array reference.
- The kernel's `sscanf` and `sprintf` are not in membuf.c:
  they are modelled as the kernel's `%d` behaves (white space per the
  kernel's `isspace`, which includes byte 0xA0; only `-` as sign; the value
  wrapped into a 32-bit `int`). Field widths, other conversions and a NUL
  byte inside the text (the conversion stops there, as it does at any other
  non-digit) need no further modelling. Text is a sequence of characters in
  the byte range.
- Negative file offsets: the driver compares the signed `loff_t` without
  checking its sign; every data method requires `off >= 0`.
- `ssize_t`, `size_t` and `loff_t` overflow: the size is at most `INT_MAX`,
  so no count or offset computed here can overflow; it is not modelled.
- `Membuf.Device.Read`: on `-EFAULT` the bytes delivered are taken to be the
  prefix `copy_to_user` reports as copied; whatever an architecture's copy
  routine may have stored past that point in the caller's memory is not
  modelled.

## Findings

| source | as written | input that shows it | evidently intended | confidence | as-written member | corrected member |
|---|---|---|---|---|---|---|
| membuf.c:32 | `module_param(buf_size, int, 0660)` lets a run-time write set `buf_size` without reallocating `buffer` | buffer of 4096 bytes, write 8192 to the parameter, then read 10 bytes at offset 4096: the copy starts past the allocation | changing the size reallocates the buffer, as `buf_size_store` does (or the parameter is not writable at run time) | high; not executed | `MembufSpec.ParamWriteAsWritten`, `MembufSpec.ParamWriteOverrunsBuffer` | `MembufSpec.ParamWrite`, `Membuf.Device.SetBufSizeParam` |

