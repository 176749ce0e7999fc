/** The buffered migration stream (buffered_file.c) as it updates its state,
    proved equal to the functions of `BufferedModel`. */
module BufferedFile {
  import opened Bytes
  import opened BufferedModel

  class QemuFileBuffered {
    var hasError: bool
    var freezeOutput: bool
    var bytesXfer: nat
    var xferLimit: nat
    var buffer: array<byte>
    var bufferSize: nat
    var bufferCapacity: nat
    /** The backend: what it has accepted and how it will answer. */
    var sent: seq<byte>
    var replies: seq<int>
    /** Calls of `put_ready`. */
    var readyCalls: nat
    /** Calls of `wait_for_unfreeze`, and whether the backend was closed. */
    var waits: nat
    var closed: bool

    ghost predicate Valid()
      reads this
    {
      bufferSize <= bufferCapacity == buffer.Length
    }

    ghost function Now(): Stream
      requires Valid()
      reads this, buffer
    {
      Stream(hasError, freezeOutput, bytesXfer, xferLimit, buffer[..bufferSize], sent, replies)
    }

    /** `qemu_fopen_ops_buffered`. */
    constructor (bytesPerSec: nat, replies: seq<int>)
      ensures Valid() && fresh(buffer) && Now() == Stream(false, false, 0, bytesPerSec / 10, [], [], replies)
    {
      hasError, freezeOutput, bytesXfer, xferLimit := false, false, 0, bytesPerSec / 10;
      buffer, bufferSize, bufferCapacity := new byte[0], 0, 0;
      this.replies, sent, readyCalls, waits, closed := replies, [], 0, 0, false;
    }

    /** The backend's `put_buffer`. */
    method PutBuffer(data: seq<byte>) returns (ret: int)
      requires Valid()
      modifies this`sent, this`replies
      ensures Valid() && (ret, Now()) == Ask(old(Now()), data)
    {
      if replies == [] {
        return -1;
      }
      ret := if replies[0] > |data| then |data| else replies[0];
      replies := replies[1..];
      sent := sent + if ret > 0 then data[..ret] else [];
    }

    /** `buffered_append`. */
    method BufferedAppend(data: seq<byte>)
      requires Valid()
      modifies this`buffer, this`bufferSize, this`bufferCapacity, buffer
      ensures Valid() && (buffer == old(buffer) || fresh(buffer))
      ensures buffer[..bufferSize] == old(buffer[..bufferSize]) + data
    {
      ghost var was := buffer[..bufferSize];
      if |data| > bufferCapacity - bufferSize {
        bufferCapacity := bufferCapacity + |data| + 1024;
        var tmp := new byte[bufferCapacity];
        CopyInto(tmp, 0, buffer[..bufferSize]);
        buffer := tmp;
        assert buffer[..bufferSize] == was;
      }
      CopyInto(buffer, bufferSize, data);
      bufferSize := bufferSize + |data|;
      assert buffer[..bufferSize] == was + data;
    }

    /** The loop of `buffered_flush`. */
    method FlushLoop() returns (offset: nat)
      requires Valid() && !hasError
      modifies this`hasError, this`freezeOutput, this`sent, this`replies
      ensures Valid() && (Now(), offset) == FlushFrom(old(Now()), 0)
    {
      offset := 0;
      while offset < bufferSize
        invariant offset <= bufferSize && |Now().pending| == bufferSize
        invariant FlushFrom(Now(), offset) == FlushFrom(old(Now()), 0)
        decreases bufferSize - offset
      {
        assert buffer[..bufferSize][offset..] == buffer[offset..bufferSize];
        var ret := PutBuffer(buffer[offset..bufferSize]);
        if ret == -EAGAIN {
          freezeOutput := true;
          break;
        }
        if ret <= 0 {
          hasError := true;
          break;
        } else {
          offset := offset + ret;
        }
      }
    }

    /** `memmove(buffer, buffer + offset, size - offset)`. */
    method MoveDown(offset: nat)
      requires Valid() && offset <= bufferSize
      modifies buffer
      ensures buffer[..bufferSize - offset] == old(buffer[offset..bufferSize])
    {
      forall k | 0 <= k < bufferSize - offset {
        buffer[k] := buffer[offset + k];
      }
    }

    /** `buffered_flush`. */
    method BufferedFlush()
      requires Valid()
      modifies this`hasError, this`freezeOutput, this`sent, this`replies, this`bufferSize, buffer
      ensures Valid() && Now() == Flush(old(Now()))
    {
      if hasError {
        return;
      }
      var offset := FlushLoop();
      assert buffer[..bufferSize][offset..] == buffer[offset..bufferSize];
      MoveDown(offset);
      bufferSize := bufferSize - offset;
    }

    /** The loop of `buffered_put_buffer`. */
    method PutDirect(buf: seq<byte>) returns (offset: int)
      requires Valid()
      modifies this`hasError, this`freezeOutput, this`bytesXfer, this`sent, this`replies
      ensures Valid() && (Now(), offset) == Direct(old(Now()), buf, 0)
    {
      offset := 0;
      while !freezeOutput && offset < |buf|
        invariant 0 <= offset <= |buf|
        invariant Direct(Now(), buf, offset) == Direct(old(Now()), buf, 0)
        decreases |buf| - offset
      {
        if bytesXfer > xferLimit {
          break;
        }
        var ret := PutBuffer(buf[offset..]);
        if ret == -EAGAIN {
          freezeOutput := true;
          break;
        }
        if ret <= 0 {
          hasError := true;
          offset := -EINVAL;
          break;
        }
        offset := offset + ret;
        bytesXfer := bytesXfer + ret;
      }
    }

    /** `buffered_put_buffer`. */
    method BufferedPutBuffer(buf: seq<byte>, pos: int) returns (offset: int)
      requires Valid()
      modifies this, buffer
      ensures Valid() && (buffer == old(buffer) || fresh(buffer))
      ensures (Now(), offset) == Put(old(Now()), buf)
      ensures readyCalls == old(readyCalls)
                            + if pos == 0 && buf == [] && !old(hasError) && bytesXfer <= xferLimit then 1 else 0
    {
      hide Flush, Direct;
      if hasError {
        return -EINVAL;
      }
      freezeOutput := false;
      BufferedFlush();
      offset := PutDirect(buf);
      if offset >= 0 {
        BufferedAppend(buf[offset..]);
        offset := |buf|;
      }
      if pos == 0 && |buf| == 0 {
        if bytesXfer <= xferLimit {
          readyCalls := readyCalls + 1;
        }
      }
    }

    /** `buffered_close`. */
    method BufferedClose()
      requires Valid()
      modifies this`hasError, this`freezeOutput, this`sent, this`replies, this`bufferSize, this`waits,
               this`closed, buffer
      ensures Valid() && Now() == Drain(old(Now())) && closed
    {
      hide Flush;
      while !hasError && bufferSize != 0
        invariant Valid() && Drain(Now()) == Drain(old(Now()))
        decreases |replies|, if hasError then 0 else 1
      {
        FlushAsks(Now());
        BufferedFlush();
        if freezeOutput {
          waits := waits + 1;
        }
      }
      closed := true;
    }

    /** `buffered_rate_limit`. */
    method BufferedRateLimit() returns (limited: bool)
      requires Valid()
      ensures limited <==> !hasError && (freezeOutput || bytesXfer > xferLimit)
    {
      if hasError {
        return false;
      }
      if freezeOutput {
        return true;
      }
      if bytesXfer > xferLimit {
        return true;
      }
      return false;
    }

    /** `buffered_set_rate_limit`. */
    method BufferedSetRateLimit(rate: nat) returns (limit: nat)
      requires Valid()
      modifies this`xferLimit
      ensures Valid() && Now() == SetRate(old(Now()), rate) && limit == xferLimit
    {
      if !hasError {
        xferLimit := rate / 10;
      }
      limit := xferLimit;
    }

    /** `buffered_rate_tick`. */
    method BufferedRateTick()
      requires Valid()
      modifies this`hasError, this`freezeOutput, this`bytesXfer, this`sent, this`replies, this`bufferSize,
               this`readyCalls, this`waits, this`closed, buffer
      ensures Valid() && Now() == Tick(old(Now())) && closed == (old(closed) || old(hasError))
      ensures readyCalls == old(readyCalls) + if old(hasError) || old(freezeOutput) then 0 else 1
    {
      hide Flush, Drain;
      if hasError {
        BufferedClose();
        return;
      }
      if freezeOutput {
        return;
      }
      bytesXfer := 0;
      BufferedFlush();
      readyCalls := readyCalls + 1;
    }
  }
}
