/**
 * The heartbeat record: one observation of coding activity on one file,
 * built by the editor-event handlers and handed to the reporting tool.
 */
module Heartbeats {

  /**
   * The fields of a heartbeat that the pipeline reads or writes.
   * `timeMs` is the event time in whole milliseconds since the Unix epoch;
   * the reporting tool receives it in seconds with three decimals.
   * `aiLineChanges` and `humanLineChanges` are read when the argument
   * vector is built.
   */
  datatype Heartbeat = Heartbeat(
    entity: string,
    entityType: string,
    category: string,
    timeMs: int,
    plugin: string,
    lineNumber: int,
    cursorPos: int,
    lines: int,
    alternateProject: string,
    projectFolder: string,
    isWrite: bool,
    isUnsaved: bool,
    localFile: string,
    aiLineChanges: int,
    humanLineChanges: int)
}
