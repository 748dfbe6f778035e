/**
 * The I2S transport helper: choosing the PLLI2S settings for a sample rate,
 * configuring the I2S handle, sizing a DMA transmit request and filtering the
 * DMA completion callbacks. The HAL calls themselves are foreign code; the model
 * keeps what the helper computes and what it writes into the handle.
 */
module I2s {

  import opened Common

  /** Largest element count one DMA request can carry (`DMA_MAX_SZE`). */
  const DmaMaxSize: nat := 0xFFFF

  /** Bytes per audio sample: 16-bit samples (`SAMPLE_SIZE`). */
  const SampleSize: nat := 2

  /** `DMA_MAX`: an element count clamped to what one DMA request can carry. */
  function DmaMax(x: nat): (r: nat)
    ensures r <= DmaMaxSize && r <= x
    ensures r == x || r == DmaMaxSize
  {
    if x <= DmaMaxSize then x else DmaMaxSize
  }

  lemma DmaMaxBelowLimit(x: nat)
    requires x <= DmaMaxSize
    ensures DmaMax(x) == x
  {
  }

  lemma DmaMaxAboveLimit(x: nat)
    requires x > DmaMaxSize
    ensures DmaMax(x) == DmaMaxSize
  {
  }

  lemma DmaMaxIdempotentMonotone(x: nat, y: nat)
    ensures DmaMax(DmaMax(x)) == DmaMax(x)
    ensures x <= y ==> DmaMax(x) <= DmaMax(y)
  {
  }

  /** The element count `I2s_StartNewTransfer` requests for a buffer of len bytes. */
  function TransferCount(len: nat): (count: nat)
    ensures count <= DmaMaxSize
    ensures count * SampleSize <= len
    ensures len < 2 * (DmaMaxSize + 1) ==> count * SampleSize + len % SampleSize == len
  {
    DmaMax(len / SampleSize)
  }

  /** The 4096-byte ping-pong buffer of the player goes out as 2048 16-bit samples. */
  lemma PlayerBufferTransferCount()
    ensures TransferCount(4096) == 2048
  {
  }

  // The sample rates and PLLI2S settings of RM0090, section 28.4.4, Table 127,
  // as three parallel eight-entry tables.
  const SampleRates: seq<nat> := [8000, 11025, 16000, 22050, 32000, 44100, 48000, 96000]
  const PllNTable: seq<nat> := [256, 429, 213, 429, 426, 271, 258, 344]
  const PllRTable: seq<nat> := [5, 4, 4, 4, 4, 6, 3, 1]

  datatype PllConfig = PllConfig(plli2sN: nat, plli2sR: nat)

  lemma TablesParallelAndDistinct()
    ensures |SampleRates| == |PllNTable| == |PllRTable| == 8
    ensures forall i, j :: 0 <= i < j < |SampleRates| ==> SampleRates[i] != SampleRates[j]
  {
  }

  /**
   * `I2s_PllClockConfig`: the first table entry whose rate is the requested one
   * selects PLLI2SN and PLLI2SR; a rate missing from the table keeps index 0,
   * the 8000 Hz settings, without any error.
   */
  method PllClockConfig(rate: nat) returns (pll: PllConfig)
    ensures forall i :: 0 <= i < |SampleRates| && SampleRates[i] == rate ==>
              pll == PllConfig(PllNTable[i], PllRTable[i])
    ensures rate !in SampleRates ==> pll == PllConfig(256, 5)
  {
    TablesParallelAndDistinct();
    var freq := 0;
    var i := 0;
    while i < 8
      invariant 0 <= i <= 8
      invariant forall j :: 0 <= j < i ==> SampleRates[j] != rate
      invariant freq == 0
    {
      if SampleRates[i] == rate {
        freq := i;
        break;
      }
      i := i + 1;
    }
    pll := PllConfig(PllNTable[freq], PllRTable[freq]);
  }

  datatype SpiInstance = Spi1 | Spi2 | Spi3
  datatype ClockSource = ClockPll | ClockExternal
  datatype Polarity = CpolLow | CpolHigh
  datatype DataFormat = Data16B | Data16BExtended | Data24B | Data32B
  datatype Mode = SlaveTx | SlaveRx | MasterTx | MasterRx
  datatype Standard = Philips | Msb | Lsb | PcmShort | PcmLong

  datatype InitSettings = InitSettings(
    audioFreq: nat,
    clockSource: ClockSource,
    cpol: Polarity,
    dataFormat: DataFormat,
    mclkOutput: bool,
    mode: Mode,
    standard: Standard)

  /** The parts of `I2S_HandleTypeDef` that this helper writes. */
  class I2sHandle {
    var instance: SpiInstance
    var init: InitSettings

    constructor (instance: SpiInstance, init: InitSettings)
      ensures this.instance == instance && this.init == init
    {
      this.instance := instance;
      this.init := init;
    }

    /**
     * `I2s_FreqUpdate`: SPI3 as a 16-bit Philips I2S master transmitter clocked
     * from the PLL, clock idle low, MCLK output on, at the given sample rate.
     */
    method FreqUpdate(rate: nat)
      modifies this
      ensures instance == Spi3
      ensures init == InitSettings(rate, ClockPll, CpolLow, Data16B, true, MasterTx, Philips)
    {
      instance := Spi3;
      init := InitSettings(rate, ClockPll, CpolLow, Data16B, true, MasterTx, Philips);
    }

    /** `I2s_Init`: program the PLL for the rate, then the handle. */
    method Init(rate: nat) returns (pll: PllConfig)
      modifies this
      ensures instance == Spi3
      ensures init == InitSettings(rate, ClockPll, CpolLow, Data16B, true, MasterTx, Philips)
      ensures rate in SampleRates ==>
                exists i :: 0 <= i < |SampleRates| && SampleRates[i] == rate &&
                  pll == PllConfig(PllNTable[i], PllRTable[i])
      ensures rate !in SampleRates ==> pll == PllConfig(256, 5)
    {
      pll := PllClockConfig(rate);
      FreqUpdate(rate);
    }
  }

  /** The two notifications the transport hands to the player. */
  datatype Notification = HalfTransferDone | FullTransferDone

  /** `HAL_I2S_TxCpltCallback`: forwarded as "full transfer done" only for SPI3. */
  function TxCpltCallback(instance: SpiInstance): (n: Option<Notification>)
    ensures n.Some? <==> instance == Spi3
    ensures n.Some? ==> n.value == FullTransferDone
  {
    if instance == Spi3 then Some(FullTransferDone) else None
  }

  /** `HAL_I2S_TxHalfCpltCallback`: forwarded as "half transfer done" only for SPI3. */
  function TxHalfCpltCallback(instance: SpiInstance): (n: Option<Notification>)
    ensures n.Some? <==> instance == Spi3
    ensures n.Some? ==> n.value == HalfTransferDone
  {
    if instance == Spi3 then Some(HalfTransferDone) else None
  }

}
