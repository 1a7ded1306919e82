/** The value a slider reports when it moves: one number, or the numbers of all its thumbs. */
module Slider {
  datatype SliderValue = Number(value: int) | Numbers(values: seq<int>)
}
