/**
 * The sound effects the core asks for. Loading and playing the files is
 * left to the audio plugin; the model only records which cue was requested.
 */
module Audio {

  /** `play_hit` (a wall), `play_bounce` (a paddle), `play_win` (a goal). */
  datatype Sound = Hit | Bounce | Win
}
