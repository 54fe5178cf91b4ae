/** The domain types of internal/store/types.go and the rows of the two tables. */
module Types {
  import opened Base

  type TaskId = string

  datatype Status = Queued | Running | Completed | Partial | Failed | Cancelled {
    predicate IsTerminal() {
      Completed? || Partial? || Failed? || Cancelled?
    }

    /** The statuses under which a poll shows parts. */
    predicate IsPublished() {
      Completed? || Partial?
    }
  }

  datatype WarningCode = PerChannelTruncated | TotalTruncated

  datatype Warning = Warning(channelId: string, code: WarningCode, limit: int, actualSeen: int)

  /** Metadata of one uploaded part. */
  datatype Part = Part(taskId: TaskId, partSeq: nat, s3Key: string, sizeBytes: nat,
                       messageCount: nat, sha256: string, channelIds: seq<string>)

  datatype TimeRange = TimeRange(startTs: int, endTs: int)

  /** A row of batch_task; the clock columns are not part of the model. */
  datatype Task = Task(caller: string, status: Status, actualCount: int, channels: seq<string>,
                       range: TimeRange, requestId: string, warnings: seq<Warning>,
                       errorCode: string, errorMessage: string)

  /** What a run reports and `Finalize` stores. */
  datatype Verdict = Verdict(status: Status, count: int, warnings: seq<Warning>,
                             errorCode: string, errorMessage: string)

  function MessageCount(p: Part): nat { p.messageCount }

  function TotalMessages(parts: seq<Part>): nat {
    Sum(MessageCount, parts)
  }

  /** Parts numbered 0, 1, 2, ... without a gap. */
  ghost predicate Dense(parts: seq<Part>) {
    forall k :: 0 <= k < |parts| ==> parts[k].partSeq == k
  }

  /** What a run that is not stopped delivers. */
  datatype Plan = Plan(parts: seq<Part>, count: nat, warnings: seq<Warning>)

  function Success(p: Plan): Verdict {
    Verdict(if p.warnings == [] then Completed else Partial, p.count, p.warnings, "", "")
  }

  function Failure(message: string): (v: Verdict)
    ensures v.status == Failed && v.count == 0 && v.warnings == []
  {
    Verdict(Failed, 0, [], "internal_error", message)
  }

  function QueueFull(): (v: Verdict)
    ensures v.status == Failed && v.count == 0 && v.warnings == []
  {
    Verdict(Failed, 0, [], "service_degraded", "queue full")
  }
}
