/** The fixed catalog of logcat tags the collector filters on when no tag
    list is configured. Its order is the index order of the colour table. */
module TagUtils {

  /** One entry per logcat priority, as it appears in `logcat -v time` output. */
  const TAGS: seq<string> := ["V/", "D/", "I/", "W/", "E/", "A/"]
}
