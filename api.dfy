/** The records that travel between the server and the browser as JSON. */
module Api {

  datatype Option<T> = None | Some(value: T)

  /** An ISO-8601 text from the server's clock. The model never looks inside
      it: the server is handed one, the browser is handed its age. */
  type Timestamp = string

  /** One generated (placeholder) video, as the generate endpoint returns it:
      the JSON keys model_id, model_name, video_url, prompt, generation_time,
      timestamp and likes. */
  datatype VideoResult = VideoResult(
    modelId: string,
    modelName: string,
    videoUrl: string,
    prompt: string,
    generationTime: string,
    timestamp: Timestamp,
    likes: nat)

  /** One remembered request, as the history endpoint returns it: the JSON keys
      prompt, models (display names), timestamp and results (a count). */
  datatype HistoryEntry = HistoryEntry(
    prompt: string,
    models: seq<string>,
    timestamp: Timestamp,
    results: nat)
}
