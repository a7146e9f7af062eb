/**
 * The membuf character device: one resizable in-memory buffer (`buffer`,
 * `buf_size`) and the operations on it. Each method is one call into the
 * driver; the driver's reader-writer semaphore only makes each call atomic,
 * so here each method simply runs to completion.
 *
 * What the environment decides is passed in: whether kmalloc succeeds
 * (`allocOk`), how many bytes copy_to_user / copy_from_user could not copy
 * (`uncopied`), and the caller's bytes and text.
 */
module Membuf {
  import opened Wrappers
  import opened DecimalText
  import opened MembufSpec

  class Device {
    /** buf_size: the current size in bytes, a C int. */
    var bufSize: int
    /** buffer: the storage, always exactly bufSize bytes long. */
    var buffer: array<byte>

    ghost predicate Valid()
      reads this
    {
      0 <= bufSize <= INT_MAX && buffer.Length == bufSize
    }

    /** The state before the module's init runs: size 0 and no storage. */
    constructor ()
      ensures Valid() && bufSize == 0 && buffer[..] == []
    {
      bufSize := 0;
      buffer := new byte[0];
    }

    /**
     * reallocate_buffer: allocate `newSize` zeroed bytes, copy the common
     * prefix of the old buffer into them and publish the new buffer; on
     * allocation failure report false and touch nothing.
     */
    method ReallocateBuffer(newSize: int, allocOk: bool) returns (ok: bool)
      requires Valid() && 0 <= newSize <= INT_MAX
      modifies this
      ensures Valid()
      ensures ok == allocOk
      ensures ok ==> fresh(buffer) && bufSize == newSize && buffer[..] == Resized(old(buffer[..]), newSize)
      ensures !ok ==> bufSize == old(bufSize) && buffer == old(buffer) && buffer[..] == old(buffer[..])
    {
      if !allocOk {
        return false;
      }
      var newBuffer := new byte[newSize];
      forall i | 0 <= i < newSize {
        newBuffer[i] := 0;
      }
      var copySize := Min(newSize, bufSize);
      forall i | 0 <= i < copySize {
        newBuffer[i] := buffer[i];
      }
      bufSize, buffer := newSize, newBuffer;
      return true;
    }

    /**
     * buf_size_show: the size as decimal digits and a newline, and the
     * number of characters written. The text is exactly what
     * buf_size_store reads back as the same size.
     */
    method BufSizeShow() returns (text: string, result: int)
      requires Valid()
      ensures text == ShowText(bufSize)
      ensures result == |text| >= 2
      ensures text[|text| - 1] == '\n' && AllDigits(text[..|text| - 1])
      ensures ScanInt(text) == Some(bufSize)
    {
      text := FormatInt(bufSize) + "\n";
      assert text[..|text| - 1] == FormatInt(bufSize);
      ScanFormatRoundTrip(bufSize, "\n");
      result := |text|;
    }

    /**
     * buf_size_store: parse a leading `%d` from `text`; nothing parsed is a
     * no-op returning 0; a negative value resets the size to
     * BUF_SIZE_DEFAULT and returns 0; any other value becomes the new size
     * and the whole count is returned; a failed allocation returns -ENOMEM
     * and leaves the buffer as it was.
     */
    method BufSizeStore(text: string, allocOk: bool) returns (result: int)
      requires Valid()
      modifies this
      ensures Valid()
      ensures StoreOutcome(result, buffer[..]) == StoreSpec(old(buffer[..]), text, allocOk)
      ensures result < 0 || ScanInt(text).None? ==> bufSize == old(bufSize) && buffer == old(buffer)
      ensures result >= 0 && ScanInt(text).Some? ==> fresh(buffer)
    {
      result := |text|;
      var parsed := ScanInt(text);
      if parsed.None? {
        result := 0;
        return;
      }
      var newBufSize := parsed.value;
      if newBufSize < 0 {
        result := 0;
        var ok := ReallocateBuffer(BUF_SIZE_DEFAULT, allocOk);
        if !ok {
          result := -ENOMEM;
        }
        return;
      }
      var ok := ReallocateBuffer(newBufSize, allocOk);
      if !ok {
        result := -ENOMEM;
        return;
      }
    }

    /**
     * A write of `v` to the buf_size module parameter, resizing the buffer
     * with it so that buffer and buf_size stay in step. The driver's own
     * parameter stores `v` without reallocating (MembufSpec.ParamWriteAsWritten).
     */
    method SetBufSizeParam(v: int, allocOk: bool)
      requires Valid() && INT_MIN <= v <= INT_MAX
      modifies this
      ensures Valid()
      ensures SizedBuffer(bufSize, buffer[..]) == ParamWrite(old(SizedBuffer(bufSize, buffer[..])), v, allocOk)
      ensures allocOk ==> fresh(buffer)
      ensures !allocOk ==> buffer == old(buffer)
    {
      var ok := ReallocateBuffer(if v < 0 then BUF_SIZE_DEFAULT else v, allocOk);
    }

    /**
     * membuf_read at the caller's offset `off` for at most `len` bytes.
     * Returns the result, the caller's offset afterwards and the bytes that
     * reached the caller's memory. Neither the buffer nor its size changes.
     */
    method Read(off: int, len: nat, uncopied: nat) returns (res: int, newOff: int, delivered: seq<byte>)
      requires Valid() && 0 <= off
      ensures ReadOutcome(res, newOff, delivered) == ReadSpec(buffer[..], off, len, uncopied)
    {
      newOff, delivered := off, [];
      if off == bufSize {
        res := 0;
        return;
      }
      if off > bufSize {
        res := -ESPIPE;
        return;
      }
      var count := Min(bufSize - off, len);
      var notCopied := Min(uncopied, count);
      delivered := buffer[off..off + count - notCopied];
      if notCopied != 0 {
        res := -EFAULT;
        return;
      }
      newOff := off + count;
      res := count;
    }

    /**
     * membuf_write of the caller's bytes `src` at the caller's offset `off`.
     * Returns the result and the caller's offset afterwards; the buffer is
     * overwritten in place and its size never changes.
     */
    method Write(off: int, src: seq<byte>, uncopied: nat) returns (res: int, newOff: int)
      requires Valid() && 0 <= off
      modifies buffer
      ensures Valid()
      ensures WriteOutcome(res, newOff, buffer[..]) == WriteSpec(old(buffer[..]), off, src, uncopied)
    {
      newOff := off;
      if off == bufSize {
        res := 0;
        return;
      }
      if off > bufSize {
        res := -ENOSPC;
        return;
      }
      var count := Min(bufSize - off, |src|);
      var notCopied := Min(uncopied, count);
      forall j | off <= j < off + count - notCopied {
        buffer[j] := src[j - off];
      }
      forall j | off + count - notCopied <= j < off + count {
        buffer[j] := 0;
      }
      if notCopied != 0 {
        res := -EFAULT;
        return;
      }
      newOff := off + count;
      res := count;
    }
  }

  /** After the module's initial allocation a write lands at the front of the buffer. */
  method ExampleWrite() {
    var d := new Device();
    var ok := d.ReallocateBuffer(BUF_SIZE_DEFAULT, true);
    var hello: seq<byte> := [104, 101, 108, 108, 111];
    var res, off := d.Write(0, hello, 0);
    assert res == 5 && off == 5;
    assert d.buffer[0] == 104 && d.buffer[4] == 111;
  }

  /** After shrinking through the attribute, reads at and past the new end stop. */
  method ExampleShrink() {
    var d := new Device();
    var ok := d.ReallocateBuffer(8, true);
    ScanThree();
    var stored := d.BufSizeStore("3", true);
    assert stored == 1 && d.bufSize == 3;
    var got, off2, bytes := d.Read(3, 10, 0);
    assert got == 0 && bytes == [];
    got, off2, bytes := d.Read(4, 10, 0);
    assert got == -ESPIPE;
  }

  /** A buffer the attribute has reallocated is the caller's to write to. */
  method ExampleWriteAfterStore() {
    var d := new Device();
    ScanThree();
    var stored := d.BufSizeStore("3", true);
    assert d.bufSize == 3;
    var res, off := d.Write(0, [1], 0);
    assert res == 1;
  }

  lemma ScanThree()
    ensures ScanInt("3") == Some(3)
  {
    assert FormatInt(3) + "" == "3";
    ScanFormatRoundTrip(3, "");
  }
}
