/** The one device-storage entry the upload flow shares between screens: the
    key `processing_task_id`, written after an upload that needs processing and
    read and removed by the processing screen. Storage calls become reads and
    writes of this field. */
module TaskStorage {
  import opened JsText

  class TaskStore {
    /** The stored value of `processing_task_id`, None when the key is absent. */
    var taskId: Option<string>

    constructor (initial: Option<string>)
      ensures taskId == initial
    {
      taskId := initial;
    }
  }
}
