/** The kinds of power hints, and those of camera hints. */
module Hints {
  datatype Hint =
    | VSYNC | INTERACTION | MULTITHREAD_BOOST | APP_LAUNCH | APP_PROFILE | SHIELD_STREAMING
    | HIGH_RES_VIDEO | MIRACAST | CAMERA | DISPLAY_ROTATION | UNHANDLED | OUT_OF_RANGE

  datatype CameraHint =
    | STILL_PREVIEW_POWER | VIDEO_PREVIEW_POWER | VIDEO_RECORD_POWER | HIGH_FPS_VIDEO_RECORD_POWER
    | PERF | FPS | RESET | OTHER
}
