/** The trace writer as the program has it.  Every method is the step of the same name in TraceWriterSpec, with
    whatever the operating system did as a ghost result. */
module TraceWriter {
  import opened Sequences
  import opened TraceWriterSpec

  class TraceWriter {
    const setup: Setup
    var enabled: bool
    var accepting: bool
    var finished: bool
    var bufferedRecords: nat
    var recordsWritten: nat
    var droppedRecords: nat
    var captureErrors: set<string>
    var jsonBuffer: string
    var file: string
    /** How often a signal may still interrupt a write. */
    var interruptions: nat
    ghost var past: Past

    ghost function TallyView(): Tally reads this {
      Tally(enabled, accepting, finished, bufferedRecords, recordsWritten, droppedRecords, captureErrors)
    }

    ghost function View(): Writer reads this {
      Writer(setup, TallyView(), jsonBuffer, file, past)
    }

    /** `isOpen` is false when the file, or the compression context, could not be had. */
    constructor (setup: Setup, isOpen: bool, interruptions: nat)
      ensures View() == Initial(setup, isOpen)
    {
      this.setup := setup;
      enabled, accepting, finished := isOpen, true, false;
      bufferedRecords, recordsWritten, droppedRecords, captureErrors := 0, 0, 0, {};
      jsonBuffer, file := "", "";
      this.interruptions := interruptions;
      past := Past([], 0, false, None);
    }

    /** One write call: some bytes, none, an error (-1), or an interruption (-2). */
    method SystemWrite(data: string) returns (n: int)
      requires data != ""
      modifies `file, `interruptions
      ensures -2 <= n <= |data| && file == old(file) + data[..if n > 0 then n else 0]
      ensures n == -2 ==> interruptions < old(interruptions)
      ensures n != -2 ==> interruptions == old(interruptions)
    {
      n :| -2 <= n <= |data|;
      if n == -2 {
        if interruptions == 0 {
          n := -1;
        } else {
          interruptions := interruptions - 1;
        }
      } else if n > 0 {
        file := file + data[..n];
      }
    }

    /** Retries until everything is written, an error comes, or nothing moves. */
    method WriteData(data: string) returns (ok: bool, ghost f: Flushed)
      modifies `file, `interruptions, `enabled
      ensures !f.NotCompressed? && ok == Succeeds(data, f)
      ensures file == old(file) + Written(data, f)
      ensures enabled == (old(enabled) && ok)
    {
      var total := 0;
      while total < |data|
        invariant 0 <= total <= |data|
        invariant file == old(file) + data[..total] && enabled == old(enabled)
        decreases |data| - total, interruptions
      {
        var n := SystemWrite(data[total..]);
        if n == -2 {
        } else if n <= 0 {
          enabled := false;
          assert data[total..][..0] == "";
          return false, Torn(total);
        } else {
          assert data[..total] + data[total..][..n] == data[..total + n];
          total := total + n;
        }
      }
      assert data[..|data|] == data;
      return true, Complete;
    }

    method FinishBuffer(success: bool)
      modifies `recordsWritten, `droppedRecords, `captureErrors, `enabled, `bufferedRecords, `jsonBuffer
      ensures TallyView() == FinishBufferWrite(old(TallyView()), success) && jsonBuffer == ""
    {
      if success {
        recordsWritten := recordsWritten + bufferedRecords;
      } else {
        droppedRecords := droppedRecords + bufferedRecords;
        captureErrors := captureErrors + {"record_write_failed"};
        enabled := false;
      }
      bufferedRecords := 0;
      jsonBuffer := "";
    }

    /** `zipped` is false when the compressor reports an error. */
    method FlushBuffer(zipped: bool) returns (ghost f: Flushed)
      modifies this
      ensures View() == Flush(old(View()), f) && past == old(past)
    {
      f := Complete;
      if setup.mode.Text? || jsonBuffer == "" || !enabled {
        return;
      }
      if setup.mode.Compressed? {
        if !zipped {
          captureErrors := captureErrors + {"compression_failed"};
          f := NotCompressed;
          FinishBuffer(false);
          return;
        }
      }
      var data := if setup.mode.Compressed? then setup.zip(jsonBuffer) else jsonBuffer;
      var ok;
      ok, f := WriteData(data);
      FinishBuffer(ok);
    }

    method AppendLine(line: Line, isRecord: bool)
      modifies `jsonBuffer, `past
      ensures View() == Append(old(View()), line, isRecord)
    {
      jsonBuffer := jsonBuffer + setup.dump(line) + "\n";
      past := past.(accepted := past.accepted + [Entry(line, isRecord)]);
    }

    method PutMetadata(line: Line)
      modifies this
      ensures View() == WriteMetadata(old(View()), line)
    {
      if !(enabled && accepting) || finished || setup.mode.Text? {
        return;
      }
      AppendLine(line, false);
    }

    method BufferLine(line: Line, zipped: bool) returns (ok: bool, ghost f: Flushed)
      modifies this
      ensures View() == Buffer(old(View()), line, f) && ok == enabled
    {
      hide Flush;
      f := Complete;
      AppendLine(line, true);
      bufferedRecords := bufferedRecords + 1;
      if |jsonBuffer| >= setup.threshold {
        f := FlushBuffer(zipped);
      }
      ok := enabled;
    }

    method OfferRecord()
      modifies `past
      ensures View() == Offer(old(View()))
    {
      past := past.(offered := past.offered + 1);
    }

    /** The record is lost. */
    method Refuse(reasons: set<string>)
      modifies `droppedRecords, `captureErrors
      ensures View() == Drop(old(View()), reasons)
    {
      droppedRecords := droppedRecords + 1;
      captureErrors := captureErrors + reasons;
    }

    method NoteErrors(reasons: set<string>)
      modifies `captureErrors
      ensures View() == Noted(old(View()), reasons)
    {
      captureErrors := captureErrors + reasons;
    }

    method PutEncodedRecord(line: Line, zipped: bool) returns (ok: bool, ghost f: Flushed)
      modifies this
      ensures View() == WriteEncoded(old(View()), line, f)
      ensures ok == (!old(finished || !IsEnabled(TallyView()) || setup.mode.Text?) && enabled)
    {
      hide Buffer, Drop, Offer;
      f := Complete;
      OfferRecord();
      if finished || !(enabled && accepting) || setup.mode.Text? {
        Refuse({"record_write_rejected"});
        return false, f;
      }
      ok, f := BufferLine(line, zipped);
    }

    method PutTrace(line: Option<Line>, sassKnown: bool, textOk: bool, zipped: bool) returns (ok: bool, ghost f: Flushed)
      modifies this
      ensures View() == WriteTrace(old(View()), line, sassKnown, textOk, f)
    {
      hide Buffer, Drop, Offer, Noted;
      f := Complete;
      if finished {
        return false, f;
      }
      OfferRecord();
      if !(enabled && accepting) {
        Refuse({});
        return false, f;
      }
      NoteErrors(if sassKnown then {} else {"missing_instruction_identity"});
      if !setup.mode.Text? {
        if line.None? {
          Refuse({"serialization_failed", "record_write_failed"});
          return false, f;
        }
        ok, f := BufferLine(line.value, zipped);
        return;
      }
      if textOk {
        recordsWritten := recordsWritten + 1;
      } else {
        Refuse({"record_write_failed"});
      }
      ok := textOk;
    }

    method DisableTrace(zipped: bool) returns (ghost f: Flushed)
      modifies this
      ensures View() == Disable(old(View()), f)
    {
      hide Flush;
      captureErrors := captureErrors + {"trace_disabled"};
      f := FlushBuffer(zipped);
      accepting := false;
      past := past.(disabled := true);
    }

    method Mark(reason: string, droppedRecord: bool)
      modifies this
      ensures View() == MarkCaptureError(old(View()), reason, droppedRecord)
    {
      captureErrors := captureErrors + {reason};
      if droppedRecord {
        droppedRecords := droppedRecords + 1;
        past := past.(offered := past.offered + 1);
      }
    }

    method NoteFaults(completed: bool, drained: bool, synced: bool)
      modifies `captureErrors, `enabled
      ensures captureErrors == old(captureErrors) + Faults(completed, drained, synced) && enabled == (old(enabled) && synced)
    {
      if !synced {
        captureErrors := captureErrors + {"data_sync_failed"};
        enabled := false;
      }
      if !completed {
        captureErrors := captureErrors + {"kernel_completion_unverified"};
      }
      if !drained {
        captureErrors := captureErrors + {"channel_drain_unverified"};
      }
    }

    /** Everything of finish up to the footer. */
    method Close(completed: bool, drained: bool, synced: bool, zipped: bool) returns (ghost f: Flushed)
      modifies this
      ensures View() == Closing(old(View()), completed, drained, synced, f)
    {
      hide Flush, Faults;
      f := FlushBuffer(zipped);
      NoteFaults(completed, drained, synced);
      finished := true;
      accepting := false;
      past := past.(atFinish := Some((past.offered, past.disabled)));
    }

    method FinishTrace(launchId: nat, completed: bool, drained: bool, synced: bool, zipped: bool, zippedFooter: bool)
      returns (ghost f: Flushed, ghost g: Flushed)
      modifies this
      ensures View() == Finish(old(View()), launchId, completed, drained, synced, f, g)
    {
      hide Flush, Closing;
      f, g := Complete, Complete;
      if finished {
        return;
      }
      f := Close(completed, drained, synced, zipped);
      if !enabled || setup.mode.Text? {
        return;
      }
      var footer := Footer(Completion(launchId, completed, drained, recordsWritten, droppedRecords, captureErrors,
                                      captureErrors == {} && droppedRecords == 0));
      AppendLine(footer, false);
      g := FlushBuffer(zippedFooter);
    }
  }
}
