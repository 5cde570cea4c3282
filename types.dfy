/** The records the endpoint exchanges. */
module LessonPlanTypes {
  import opened Js

  /** The request body as `Partial<LessonPlanRequest>`: every field may be
      `undefined` (None), and nothing checks at run time that a present field
      holds a string, so it is any decoded JSON value. */
  datatype LessonPlanRequest = LessonPlanRequest(
    topic: Option<Json>,
    grade_level: Option<Json>,
    subject: Option<Json>,
    learning_context: Option<Json>,
    duration_minutes: Option<Json>)
}
