/** The tool palette's modes: the hand (panning), the pen (drawing) and the pin (placing a node). */
module Tools {

  datatype Mode = Panning | Drawing | AddingNode

}
