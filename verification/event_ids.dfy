/** The numbers of the events that are named here. */
module EventIds {
  const MESSAGE_LOST: nat := 2
  const EVENT_ID_MAX: nat := 7
}
