/** How the application builds the engine: a table of size width * length for
    the seed, then a noise object over that table with the generation
    parameters, which computes its samples at once. */
module Gui {
  import opened Arith
  import opened PermTable
  import opened Noise
  import opened Grid
  import opened Perlin

  /** A table built for size width * length fits a grid of those extents, so
      every lookup of `basic_noise` stays inside it. */
  lemma TableFits(width: int, length: int, seed: real, gen: Generator)
    requires width >= 1 && length >= 1
    ensures Fits(Lattice(Table(width * length, seed, gen), width, length))
  {
    MulAtLeast(width, length);
    TableShape(width * length, seed, gen);
  }

  /** `instance_pTable(width, length, seed)`. */
  method InstancePTable(width: int, length: int, seed: real, gen: Generator) returns (pTable: PermutationTable)
    ensures fresh(pTable)
    ensures pTable.size == width * length && pTable.seed == seed
    ensures pTable.P == Table(width * length, seed, gen)
  {
    pTable := new PermutationTable();
    pTable.SetSize(width * length);
    pTable.SetSeed(seed);
    pTable.MakePermutationTable(gen);
  }

  /** `instance_pNoise(octaveN, width, length, resolution, pTable, ampStep,
      freqStep)`: configure a fresh noise object and run `complete_noise`. */
  method InstancePNoise(octaveN: int, width: int, length: int, resolution: int,
                        pTable: PermutationTable, ampStep: real, freqStep: real)
    returns (pNoise: PerlinNoise)
    requires Fits(Lattice(pTable.P, width, length)) && resolution >= 1
    ensures fresh(pNoise)
    ensures pNoise.P == pTable.P && pNoise.gridWidth == width && pNoise.gridLength == length
    ensures pNoise.octaveNum == octaveN && pNoise.resolution == resolution
    ensures pNoise.ampStep == ampStep && pNoise.freqStep == freqStep
    ensures pNoise.finalValues == FinalValues(Lattice(pTable.P, width, length), resolution, ampStep, freqStep, octaveN)
  {
    pNoise := new PerlinNoise(pTable);
    pNoise.SetOctaveNum(octaveN);
    pNoise.SetWidthLength(width, length);
    pNoise.SetResolution(resolution);
    pNoise.SetAmpStep(ampStep);
    pNoise.SetFreqStep(freqStep);
    assert pNoise.P == pTable.P && pNoise.gridWidth == width && pNoise.gridLength == length;
    assert pNoise.octaveNum == octaveN && pNoise.resolution == resolution;
    assert pNoise.ampStep == ampStep && pNoise.freqStep == freqStep;
    pNoise.CompleteNoise();
  }

  /** The application's start-up and regeneration path: a table for
      (width * length, seed), then the noise over it. For grid extents and a
      resolution of at least 1 it never indexes outside the table, and the
      stored samples are the rescaled octave sum: all NaN for a flat field,
      otherwise a (length * resolution) x (width * resolution) grid spanning
      exactly [-1, 1]. */
  method Build(seed: real, width: int, length: int, octaveN: int, resolution: int,
               ampStep: real, freqStep: real, gen: Generator)
    returns (pTable: PermutationTable, pNoise: PerlinNoise)
    requires width >= 1 && length >= 1 && resolution >= 1
    ensures fresh(pTable) && fresh(pNoise)
    ensures pTable.size == width * length && pTable.seed == seed
    ensures pNoise.gridWidth == width && pNoise.gridLength == length
    ensures pNoise.octaveNum == octaveN && pNoise.resolution == resolution
    ensures pNoise.ampStep == ampStep && pNoise.freqStep == freqStep
    ensures pNoise.P == pTable.P == Table(width * length, seed, gen)
    ensures Fits(Lattice(pTable.P, width, length))
    ensures pNoise.finalValues
            == FinalValues(Lattice(pTable.P, width, length), resolution, ampStep, freqStep, octaveN)
    ensures || pNoise.finalValues == NaNs(length * resolution, width * resolution)
            || (&& IsRect(pNoise.finalValues.cells, length * resolution, width * resolution)
                && SpansUnitRange(pNoise.finalValues.cells))
  {
    pTable := InstancePTable(width, length, seed, gen);
    TableFits(width, length, seed, gen);
    pNoise := InstancePNoise(octaveN, width, length, resolution, pTable, ampStep, freqStep);
    PositiveCells(Lattice(pTable.P, width, length), resolution);
  }
}
