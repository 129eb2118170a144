/** Which icon the patched entry points hand back for an application: the dynamic
    calendar icon, the dynamic clocks icon, or whatever the original entry point
    makes. */
module Dispatch {

  /** The desktop-file ids of the two applications whose icons are replaced. */
  const CalendarFile: string := "org.gnome.Calendar.desktop"
  const ClocksFile: string := "org.gnome.clocks.desktop"

  /** The extension's settings as the callbacks read them. */
  datatype Flags = Flags(
    enableCalendar: bool,
    showWeekday: bool,
    showMonth: bool,
    enableClocks: bool,
    showSeconds: bool)

  datatype Kind = CalendarKind | ClocksKind

  datatype Choice = Dynamic(kind: Kind) | Original

  lemma FilesDiffer()
    ensures CalendarFile != ClocksFile
  {
    assert CalendarFile[10] != ClocksFile[10];
  }

  /** createIconTexture and initProviderInfo: the calendar icon exactly when the
      calendar is enabled and the id is the calendar's, the clocks icon exactly when
      the clocks are enabled and the id is the clocks', the original otherwise. */
  function Choose(flags: Flags, appId: string): (c: Choice)
    ensures c == Dynamic(CalendarKind) <==> flags.enableCalendar && appId == CalendarFile
    ensures c == Dynamic(ClocksKind) <==> flags.enableClocks && appId == ClocksFile
    ensures c == Original <==>
      !(flags.enableCalendar && appId == CalendarFile) && !(flags.enableClocks && appId == ClocksFile)
  {
    FilesDiffer();
    if flags.enableCalendar && appId == CalendarFile then Dynamic(CalendarKind)
    else if flags.enableClocks && appId == ClocksFile then Dynamic(ClocksKind)
    else Original
  }

  /** The choice depends only on the enable flag of the application asked for: the
      display options and the other application's flag play no part. */
  lemma ChoiceIgnoresOtherFlags(flags: Flags, other: Flags, appId: string)
    requires appId == CalendarFile ==> flags.enableCalendar == other.enableCalendar
    requires appId == ClocksFile ==> flags.enableClocks == other.enableClocks
    ensures Choose(flags, appId) == Choose(other, appId)
  {
  }

  /** The name each dynamic icon's widget is given. */
  function WidgetName(kind: Kind): string {
    match kind
    case CalendarKind => "dynamic-calendar-icon"
    case ClocksKind => "dynamic-clocks-icon"
  }
}
