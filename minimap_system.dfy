/**
 * MinimapSystem's two coordinate transforms. A world map of side `mapSize` centred on the origin
 * is drawn on a square minimap `minimapSize` wide whose anchor is its centre; world x goes to
 * minimap x, world z to minimap y, and world height is dropped.
 */
module MinimapSystem {
  import opened Geometry

  datatype Vec2 = Vec2(x: real, y: real)

  /** WorldToMinimapPosition: normalise into [0, 1] across the map, recentre, scale. */
  function WorldToMinimapPosition(worldPos: Vec3, mapSize: real, minimapSize: real): Vec2
    requires mapSize != 0.0
  {
    var normalizedX := (worldPos.x + mapSize * 0.5) / mapSize;
    var normalizedZ := (worldPos.z + mapSize * 0.5) / mapSize;
    Vec2((normalizedX - 0.5) * minimapSize, (normalizedZ - 0.5) * minimapSize)
  }

  /** MinimapToWorldPosition: the inverse steps, on the ground plane y = 0. */
  function MinimapToWorldPosition(minimapPos: Vec2, mapSize: real, minimapSize: real): Vec3
    requires minimapSize != 0.0
  {
    var normalizedX := minimapPos.x / minimapSize + 0.5;
    var normalizedZ := minimapPos.y / minimapSize + 0.5;
    Vec3(normalizedX * mapSize - mapSize * 0.5, 0.0, normalizedZ * mapSize - mapSize * 0.5)
  }

  lemma DivAdd(a: real, b: real, m: real)
    requires m != 0.0
    ensures (a + b) / m == a / m + b / m
  {
  }

  lemma MulDiv(a: real, k: real, m: real)
    requires m != 0.0
    ensures (a / m) * k == a * k / m
  {
  }

  lemma ScaleCancels(a: real, k: real, m: real)
    requires k != 0.0 && m != 0.0
    ensures a * k / m * m / k == a
  {
    assert a * k / m * m == a * k;
  }

  /** World to minimap is a plain scaling by minimapSize / mapSize. */
  lemma WorldToMinimapScales(worldPos: Vec3, mapSize: real, minimapSize: real)
    requires mapSize != 0.0
    ensures WorldToMinimapPosition(worldPos, mapSize, minimapSize) ==
              Vec2(worldPos.x * minimapSize / mapSize, worldPos.z * minimapSize / mapSize)
  {
    var m := mapSize;
    DivAdd(worldPos.x, m * 0.5, m);
    DivAdd(worldPos.z, m * 0.5, m);
    assert m * 0.5 / m == 0.5;
    MulDiv(worldPos.x, minimapSize, m);
    MulDiv(worldPos.z, minimapSize, m);
  }

  /** Minimap to world is a plain scaling by mapSize / minimapSize. */
  lemma MinimapToWorldScales(minimapPos: Vec2, mapSize: real, minimapSize: real)
    requires minimapSize != 0.0
    ensures MinimapToWorldPosition(minimapPos, mapSize, minimapSize) ==
              Vec3(minimapPos.x * mapSize / minimapSize, 0.0, minimapPos.y * mapSize / minimapSize)
  {
    var s := minimapSize;
    MulDiv(minimapPos.x, mapSize, s);
    MulDiv(minimapPos.y, mapSize, s);
  }

  /** World to minimap and back gives the same ground position, at height 0. */
  lemma WorldRoundTrip(worldPos: Vec3, mapSize: real, minimapSize: real)
    requires mapSize != 0.0 && minimapSize != 0.0
    ensures MinimapToWorldPosition(WorldToMinimapPosition(worldPos, mapSize, minimapSize), mapSize, minimapSize) ==
              Vec3(worldPos.x, 0.0, worldPos.z)
  {
    var p := WorldToMinimapPosition(worldPos, mapSize, minimapSize);
    WorldToMinimapScales(worldPos, mapSize, minimapSize);
    MinimapToWorldScales(p, mapSize, minimapSize);
    ScaleCancels(worldPos.x, minimapSize, mapSize);
    ScaleCancels(worldPos.z, minimapSize, mapSize);
  }

  /** Minimap to world and back gives the same minimap point. */
  lemma MinimapRoundTrip(minimapPos: Vec2, mapSize: real, minimapSize: real)
    requires mapSize != 0.0 && minimapSize != 0.0
    ensures WorldToMinimapPosition(MinimapToWorldPosition(minimapPos, mapSize, minimapSize), mapSize, minimapSize) == minimapPos
  {
    var p := MinimapToWorldPosition(minimapPos, mapSize, minimapSize);
    MinimapToWorldScales(minimapPos, mapSize, minimapSize);
    WorldToMinimapScales(p, mapSize, minimapSize);
    ScaleCancels(minimapPos.x, mapSize, minimapSize);
    ScaleCancels(minimapPos.y, mapSize, minimapSize);
  }

  /** The world origin, at any height, is the centre of the minimap. */
  lemma OriginIsCentre(height: real, mapSize: real, minimapSize: real)
    requires mapSize != 0.0
    ensures WorldToMinimapPosition(Vec3(0.0, height, 0.0), mapSize, minimapSize) == Vec2(0.0, 0.0)
  {
    assert (0.0 + mapSize * 0.5) / mapSize == 0.5;
  }

  /** OnMinimapClick: the camera moves over the clicked ground point and keeps its height. */
  function CameraAfterClick(camera: Vec3, minimapPos: Vec2, mapSize: real, minimapSize: real): (r: Vec3)
    requires minimapSize != 0.0
  {
    var worldPos := MinimapToWorldPosition(minimapPos, mapSize, minimapSize);
    Vec3(worldPos.x, camera.y, worldPos.z)
  }

  /** Clicking where a world position is drawn brings the camera right above it. */
  lemma ClickCentresCamera(camera: Vec3, worldPos: Vec3, mapSize: real, minimapSize: real)
    requires mapSize != 0.0 && minimapSize != 0.0
    ensures CameraAfterClick(camera, WorldToMinimapPosition(worldPos, mapSize, minimapSize), mapSize, minimapSize) ==
              Vec3(worldPos.x, camera.y, worldPos.z)
  {
    WorldRoundTrip(worldPos, mapSize, minimapSize);
  }
}
