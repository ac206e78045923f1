/** The study configuration a participant receives at enrolment. */
module Study {
  /** How the interaction widget is shown during a phase. */
  datatype InteractionWidgetDisplayStrategy = Default | Bucketed | Hidden

  /**
   * A phase of the participant's experimental group: it starts on study day `fromDay` and
   * lasts `durationDays` days.
   */
  datatype ExperimentalGroupPhase = ExperimentalGroupPhase(
    experimentalGroupId: int,
    name: string,
    fromDay: int,
    durationDays: int,
    interactionWidgetStrategy: InteractionWidgetDisplayStrategy)

  /** The study description loaded at the start of a study; only the fields the model uses. */
  datatype StudyDescription = StudyDescription(id: int, name: string, durationDays: int)
}
