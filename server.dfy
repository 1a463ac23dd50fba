/**
 * The language server's heartbeat pipeline: a per-file throttle in front
 * of a FIFO queue that is drained one record per timer tick, or at once
 * when it reaches its size limit, plus the per-file cursor column used by
 * save notifications.
 *
 * The server's package-level state is one object. Each goroutine start
 * and each timer callback runs to completion at the point where it is
 * started or fires, so a record is handed to the reporting tool in the
 * step that dispatches it. The ghost logs `enqueued` and `dispatched`
 * record every record queued and every record dispatched.
 */
module Server {
  import opened Wrappers
  import opened Heartbeats
  import opened Events
  import CliArgs
  import Config

  /** Minimum spacing, in milliseconds, between two admitted change events for one file. */
  const EventDebounceMs := 50

  /** Queue length at which the queue is flushed without waiting for the timer. */
  const MaxQueueSize := 100

  const MissingCliPath := "wakatime-cli path not provided"

  /**
   * The throttle's rule: a save is always let through; a change is let
   * through when its file has no admitted event yet or the last one is at
   * least EventDebounceMs old.
   */
  predicate Admits(lastEventTime: map<string, int>, hb: Heartbeat, now: int) {
    hb.isWrite || hb.entity !in lastEventTime || now - lastEventTime[hb.entity] >= EventDebounceMs
  }

  /**
   * Once an event for a file is admitted at `now`, change events for that
   * file are refused until EventDebounceMs later, while saves still pass.
   */
  lemma DebounceWindow(lastEventTime: map<string, int>, hb: Heartbeat, now: int, next: Heartbeat, later: int)
    requires Admits(lastEventTime, hb, now)
    requires next.entity == hb.entity && now <= later
    ensures Admits(lastEventTime[hb.entity := now], next, later) <==>
      next.isWrite || later >= now + EventDebounceMs
  {
  }

  class Server {
    var projectRoot: string
    var projectFolder: string
    var cliPath: string
    var queue: seq<Heartbeat>
    /** A batch-send timer is armed. */
    var timerPending: bool
    /** Time of the last admitted event, per file. */
    var lastEventTime: map<string, int>
    /** Cursor column of the last change, per file. */
    var lastCursorPos: map<string, int>
    var lastSentTime: int
    /** Every record queued so far, in order. */
    ghost var enqueued: seq<Heartbeat>
    /** Every record handed to the reporting tool so far, in order. */
    ghost var dispatched: seq<Heartbeat>

    /**
     * Records leave in the order they arrived (what has been dispatched,
     * followed by what is queued, is everything queued), the queue stays
     * below its size limit, and a timer is armed exactly while records wait.
     */
    ghost predicate Valid()
      reads this
    {
      && enqueued == dispatched + queue
      && |queue| < MaxQueueSize
      && (timerPending <==> queue != [])
    }

    constructor (cliPath: string)
      ensures Valid()
      ensures this.cliPath == cliPath && projectRoot == "" && projectFolder == ""
      ensures queue == [] && lastEventTime == map[] && lastCursorPos == map[]
      ensures enqueued == [] && dispatched == []
    {
      this.cliPath := cliPath;
      projectRoot := "";
      projectFolder := "";
      queue := [];
      timerPending := false;
      lastEventTime := map[];
      lastCursorPos := map[];
      lastSentTime := 0;
      enqueued := [];
      dispatched := [];
    }

    /**
     * The initialize request: the project root and folder become the
     * workspace root URI's path, or else the root path; with neither they
     * keep their values.
     */
    method Initialize(rootUri: Option<string>, rootPath: Option<string>)
      modifies this`projectRoot, this`projectFolder
      ensures rootUri.Some? ==> projectRoot == CleanFileUri(rootUri.value)
      ensures rootUri.None? && rootPath.Some? ==> projectRoot == rootPath.value
      ensures rootUri.Some? || rootPath.Some? ==> projectFolder == projectRoot
      ensures rootUri.None? && rootPath.None? ==>
        projectRoot == old(projectRoot) && projectFolder == old(projectFolder)
    {
      if rootUri.Some? {
        projectRoot := CleanFileUri(rootUri.value);
        projectFolder := projectRoot;
      } else if rootPath.Some? {
        projectRoot := rootPath.value;
        projectFolder := projectRoot;
      }
    }

    /** Records `pos` as the cursor column of `uri`; the line is not kept. */
    method SaveCursorPosition(uri: string, line: int, pos: int)
      modifies this`lastCursorPos
      ensures lastCursorPos == old(lastCursorPos)[uri := pos]
    {
      lastCursorPos := lastCursorPos[uri := pos];
    }

    /** The column last saved for `uri`, or 0 when none was. */
    method GetCursorPosition(uri: string) returns (pos: int)
      ensures uri in lastCursorPos ==> pos == lastCursorPos[uri]
      ensures uri !in lastCursorPos ==> pos == 0
    {
      if uri in lastCursorPos {
        return lastCursorPos[uri];
      }
      return 0;
    }

    /**
     * The argument vector the reporting tool is started with, read from
     * the configuration file's contents `config`, or the error returned
     * without starting anything when no tool path was given.
     */
    method SendHeartbeat(hb: Heartbeat, config: Option<string>, timeText: string)
      returns (r: Result<seq<string>, string>)
      ensures cliPath == "" ==> r == Failure(MissingCliPath)
      ensures cliPath != "" ==> r == Success(CliArgs.HeartbeatArgs(
        hb, Config.Setting(config, "apiKey"), Config.Setting(config, "apiUrl"), timeText))
    {
      if cliPath == "" {
        return Failure(MissingCliPath);
      }
      var apiKey := Config.GetConfigValue(config, "apiKey");
      var apiUrl := Config.GetConfigValue(config, "apiUrl");
      var args := CliArgs.BuildHeartbeatArgs(hb, apiKey, apiUrl, timeText);
      return Success(args);
    }

    /** Arms the batch-send timer unless it is armed already. */
    method ScheduleBatchSend()
      modifies this`timerPending
      ensures timerPending
    {
      if timerPending {
        return;
      }
      timerPending := true;
    }

    /**
     * Dispatches the record at the head of the queue, if any, and re-arms
     * the timer when records remain. An empty queue is left as it is.
     */
    method Flush(now: int)
      modifies this`queue, this`dispatched, this`lastSentTime, this`timerPending
      ensures dispatched + queue == old(dispatched) + old(queue)
      ensures old(queue) == [] ==>
        queue == [] && lastSentTime == old(lastSentTime) && timerPending == old(timerPending)
      ensures old(queue) != [] ==>
        && dispatched == old(dispatched) + [old(queue)[0]]
        && queue == old(queue)[1..]
        && lastSentTime == now
        && timerPending == (old(timerPending) || queue != [])
    {
      if |queue| == 0 {
        return;
      }
      var hb := queue[0];
      queue := queue[1..];
      dispatched := dispatched + [hb];
      lastSentTime := now;
      if |queue| > 0 {
        ScheduleBatchSend();
      }
    }

    /** The timer callback: disarms the timer, then flushes. */
    method TimerFires(now: int)
      requires Valid() && timerPending
      modifies this`queue, this`dispatched, this`lastSentTime, this`timerPending
      ensures Valid()
      ensures dispatched == old(dispatched) + [old(queue)[0]]
      ensures queue == old(queue)[1..] && lastSentTime == now
    {
      timerPending := false;
      Flush(now);
    }

    /**
     * The effect of queueing `record` at time `now`: it is appended to the
     * queue and, when that brings the queue to its size limit, the head of
     * the queue is dispatched at once.
     */
    twostate predicate Enqueues(record: Heartbeat, now: int)
      reads this
    {
      var grown := old(queue) + [record];
      && enqueued == old(enqueued) + [record]
      && if |grown| >= MaxQueueSize then
           && dispatched == old(dispatched) + [grown[0]]
           && queue == grown[1..]
           && lastSentTime == now
         else
           && dispatched == old(dispatched)
           && queue == grown
           && lastSentTime == old(lastSentTime)
    }

    /**
     * Queues `hb` with its project fields filled in; flushes when the
     * queue reaches its size limit, and arms the timer when it was empty.
     */
    method QueueHeartbeat(hb: Heartbeat, now: int)
      requires Valid()
      modifies this`queue, this`enqueued, this`dispatched, this`lastSentTime, this`timerPending
      ensures Valid()
      ensures Enqueues(FillProject(hb, projectRoot, projectFolder), now)
    {
      var record := FillProject(hb, projectRoot, projectFolder);
      queue := queue + [record];
      enqueued := enqueued + [record];
      if |queue| >= MaxQueueSize {
        Flush(now);
      } else if |queue| == 1 {
        ScheduleBatchSend();
      }
    }

    /**
     * The effect of offering `hb` to the throttle at `now`: when admitted,
     * its file's last event time becomes `now` and it is queued; when
     * refused, nothing changes.
     */
    twostate predicate Throttles(hb: Heartbeat, now: int)
      reads this
    {
      if Admits(old(lastEventTime), hb, now) then
        && lastEventTime == old(lastEventTime)[hb.entity := now]
        && Enqueues(FillProject(hb, projectRoot, projectFolder), now)
      else
        && lastEventTime == old(lastEventTime)
        && queue == old(queue) && enqueued == old(enqueued) && dispatched == old(dispatched)
        && lastSentTime == old(lastSentTime) && timerPending == old(timerPending)
    }

    /** Lets `hb` through to the queue unless it is a change event too close to the previous one. */
    method ThrottledHeartbeat(hb: Heartbeat, now: int)
      requires Valid()
      modifies this`lastEventTime, this`queue, this`enqueued, this`dispatched, this`lastSentTime, this`timerPending
      ensures Valid()
      ensures Throttles(hb, now)
    {
      var known := hb.entity in lastEventTime;
      if hb.isWrite {
        lastEventTime := lastEventTime[hb.entity := now];
        QueueHeartbeat(hb, now);
      } else if !known || now - lastEventTime[hb.entity] >= EventDebounceMs {
        lastEventTime := lastEventTime[hb.entity := now];
        QueueHeartbeat(hb, now);
      }
    }

    /** A change notification: records the cursor column, then offers the change heartbeat to the throttle. */
    method DidChange(uri: string, changes: seq<ContentChange>, now: int)
      requires Valid()
      modifies this`lastCursorPos, this`lastEventTime, this`queue, this`enqueued, this`dispatched,
        this`lastSentTime, this`timerPending
      ensures Valid()
      ensures lastCursorPos == old(lastCursorPos)[CleanFileUri(uri) := ChangeLocation(changes).cursorPos]
      ensures Throttles(ChangeHeartbeat(uri, changes, now), now)
    {
      var path := CleanFileUri(uri);
      var loc := ChangeLocation(changes);
      SaveCursorPosition(path, loc.lineNumber, loc.cursorPos);
      var hb := ChangeHeartbeat(uri, changes, now);
      ThrottledHeartbeat(hb, now);
    }

    /**
     * A save notification: a write heartbeat at the file's last recorded
     * cursor column, which the throttle always admits.
     */
    method DidSave(uri: string, text: Option<string>, now: int)
      requires Valid()
      modifies this`lastEventTime, this`queue, this`enqueued, this`dispatched, this`lastSentTime, this`timerPending
      ensures Valid()
      ensures var path := CleanFileUri(uri);
        var cursorPos := if path in old(lastCursorPos) then old(lastCursorPos)[path] else 0;
        Throttles(SaveHeartbeat(uri, text, now, cursorPos), now)
      ensures lastEventTime == old(lastEventTime)[CleanFileUri(uri) := now]
    {
      var path := CleanFileUri(uri);
      var cursorPos := GetCursorPosition(path);
      var hb := SaveHeartbeat(uri, text, now, cursorPos);
      ThrottledHeartbeat(hb, now);
    }
  }
}
