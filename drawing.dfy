/** The `System.Drawing.Color` values that the two interpreters use. */
module Drawing {

  datatype Color = Black | Red | Green | Blue | Transparent | Gray
}
