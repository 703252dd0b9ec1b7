/** The camera's field of view as the room description file stores it: one byte, mapped
    to degrees by a table of thresholds. */
module RidCamera {

  /** A Go `uint8`. */
  type Byte = x: int | 0 <= x < 256

  /** The field of view in degrees for a camera's FOV byte. The thresholds are strict:
      a byte above 200 gives 35 degrees, above 150 gives 45, above 110 gives 50, above
      80 gives 60, and anything else 80. */
  function CalculateFovDegrees(fovByte: Byte): (r: int)
    ensures r == 35 || r == 45 || r == 50 || r == 60 || r == 80
    ensures r == 35 <==> fovByte > 200
    ensures r == 45 <==> 150 < fovByte <= 200
    ensures r == 50 <==> 110 < fovByte <= 150
    ensures r == 60 <==> 80 < fovByte <= 110
    ensures r == 80 <==> fovByte <= 80
  {
    if fovByte > 200 then 35
    else if fovByte > 150 then 45
    else if fovByte > 110 then 50
    else if fovByte > 80 then 60
    else 80
  }

  /** A larger byte never gives a wider field of view. */
  lemma FovNarrowsAsByteGrows(a: Byte, b: Byte)
    requires a <= b
    ensures CalculateFovDegrees(b) <= CalculateFovDegrees(a)
  {
  }

  /** The band edges: each threshold byte still belongs to the wider band, and the byte
      after it to the narrower one. */
  lemma FovBandEdges()
    ensures CalculateFovDegrees(0) == 80 && CalculateFovDegrees(80) == 80 && CalculateFovDegrees(81) == 60
    ensures CalculateFovDegrees(110) == 60 && CalculateFovDegrees(111) == 50
    ensures CalculateFovDegrees(150) == 50 && CalculateFovDegrees(151) == 45
    ensures CalculateFovDegrees(200) == 45 && CalculateFovDegrees(201) == 35
    ensures CalculateFovDegrees(255) == 35
  {
  }
}
