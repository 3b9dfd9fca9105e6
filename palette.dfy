/** The badge and dot colours the pages pick from a status value. */
module Palette {
  datatype Tone = Green | Red | Yellow | Blue | Purple | Orange | Indigo | Gray
}
