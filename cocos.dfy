// The few cocos2d value types the editor rules pass around.
module Cocos {
  /** `ccColor3B`: an RGB triple, each channel 0..255. */
  datatype Color3B = Color3B(r: int, g: int, b: int)

  const WHITE: Color3B := Color3B(255, 255, 255)
  const GRAY: Color3B := Color3B(166, 166, 166)

  predicate ValidColor(c: Color3B)
  {
    0 <= c.r < 256 && 0 <= c.g < 256 && 0 <= c.b < 256
  }
}
