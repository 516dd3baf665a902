/** An optional value: stands for a Java reference that may be null. */
module Options {
  datatype Option<T> = None | Some(value: T)
}

/** android.graphics.Rect and android.graphics.Point, as values. */
module Rects {
  /** A rectangle given by its four edges, in pixels. */
  datatype Rect = Rect(left: int, top: int, right: int, bottom: int) {
    function Width(): int { right - left }
    function Height(): int { bottom - top }

    /** The same rectangle with its top edge moved down by dy pixels. */
    function ShiftTop(dy: int): (r: Rect)
      ensures r.left == left && r.right == right && r.bottom == bottom
      ensures r.top == top + dy
      ensures r.Height() == Height() - dy
    {
      this.(top := top + dy)
    }
  }

  /** The value of `new Rect()`: every edge 0. */
  const EmptyRect := Rect(0, 0, 0, 0)

  datatype Point = Point(x: int, y: int)
}

/** What the keyboard code asks of the platform, passed in as values. */
module Platform {
  import opened Rects

  /** Build.VERSION_CODES.JELLY_BEAN_MR1: the first level with Display.getRealSize. */
  const JELLY_BEAN_MR1: int := 17

  /** One answer from the display and key queries made while classifying the navigation bar. */
  datatype Display = Display(
    sdkInt: int,                // Build.VERSION.SDK_INT
    realSize: Point,            // Display.getRealSize
    size: Point,                // Display.getSize
    hasPermanentMenuKey: bool,  // ViewConfiguration.hasPermanentMenuKey
    hasBackKey: bool)           // KeyCharacterMap.deviceHasKey(KEYCODE_BACK)

  /** DisplayMetricsHolder.getScreenDisplayMetrics(): the screen in pixels. */
  datatype Metrics = Metrics(widthPixels: int, heightPixels: int)
}
