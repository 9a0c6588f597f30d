/** The direction of a calendar binding, which decides what it may import and export. */
module CalendarBindings {
  datatype Direction = ImportOnly | ExportOnly | BothWays

  predicate AllowsImport(d: Direction) { d == ImportOnly || d == BothWays }

  // bindingAllowsTaskExport
  predicate AllowsExport(d: Direction) { d == ExportOnly || d == BothWays }
}
