# FX3 firmware cores in Dafny

This project models the self-contained logic of a set of Cypress FX3 USB
firmware images (fx3imgs): a UVC camera, a USB mass-storage RAM disk, a USB
audio streamer, a HID mouse and a logic-analyser camera, together with the
shared OLED display, pan/tilt/zoom and MT9D111/MT9D112 image-sensor drivers.
The model states and proves what these cores do.

The modules:

- `Bytes` (bytes.dfy): the byte, 16-bit and 32-bit packing every file does with shifts and masks.
- `Wrappers` (wrappers.dfy): `Option`, `Min` and sequence associativity.
- `UsbSetup` (usb_setup.dfy): the decode of the two setup words every setup callback starts with.
- `UvcStream` (uvc_stream.dfy): usbArmTrace/usbArmTrace.c, the UVC camera.
- `MscBot` (msc_bot.dfy): usbMSC/usbMSC.c, Bulk-Only Transport and SCSI on a 256 KiB RAM disk.
- `UacAudio` (uac_audio.dfy): usbUAC/usbUAC.c, the SPI-flash audio streamer.
- `HidMouse` (hid_mouse.dfy): usbMouseHID/usbMouseHID.c.
- `Analyser` (analyser.dfy): usbAnalyser/usbAnalyser.c.
- `Ssd1306` (display_ssd1306.dfy): common/displaySSD1306.c.
- `Ptz` (ptz.dfy): common/ptz.c and common/ptz.h.
- `SensorBus` (sensor_bus.dfy): register writes and the sensor's MCU-variable pair, shared by both sensors.
- `Mt9d111`, `Mt9d112` (sensor_mt9d111.dfy, sensor_mt9d112.dfy): common/sensorMT9D111.c, common/sensorMT9D112.c.
- `Mt9dSensor` (sensor_mt9d.dfy): common/sensorMT9D.c, the driver that serves both sensors.

How the firmware becomes Dafny:

- Each firmware's statics are the fields of one class.
- Every interrupt callback and every pass of a thread loop is one method that runs atomically.
- The Cypress SDK is not part of this model. Each SDK call becomes an entry appended to an action log. Where an SDK call can fail, its success is a parameter of the method.
- The firmware's own error handler, `CyFxAppErrorHandler`, sleeps in a loop for ever (usbMSC.c:464-471, usbUAC.c:548-552, usbMouseHID.c:562-566). The model records that as a `hung` state instead.
- The SDK header is not part of this model either. The type mask 0x60 and the request codes take the values of sections 9.3 and 9.4 of the USB 2.0 specification: CLEAR_FEATURE 1, SET_FEATURE 3, GET_DESCRIPTOR 6, SET_CONFIGURATION 9. The recipient mask 0x03 is the SDK's `CY_U3P_USB_TARGET_MASK` that the callbacks apply (usbAnalyser.c:386, usbMouseHID.c:768). It keeps only bits 1..0 of the 5-bit recipient field that USB 2.0 defines.
- Integers are unbounded. The C widths appear as subset types `byte`, `u16`, `u32` and `i32`. Wrap-around is written out where the source depends on it, for example `prodCount--` and `pageAddress += 8`.
- C's truncating `/` and `%` on negative numbers are written out in `Ssd1306.CDiv` and `Ssd1306.CRem10`.

Properties kept as the code has them:

- The display refreshes columns `xorg..xend` of the frame buffer, but `setPixel` mirrors x to column byte `127 - x`. So only a full-width rectangle is refreshed in full. Every caller in the firmware draws full-width bands (`Ssd1306.FullWidthRefreshCovers`, `Ssd1306.NarrowRefreshMisses`, `Ssd1306.BandsTile`).
- `line3` formats a negative value into characters below '0' (`Ssd1306.NegativeValueText`).
- The UAC reader's cycle runs three pages past the sample size 0x3CD (`UacAudio.CycleCoversPastSample`).
- The HID `hidSendReport` result is the status of the last call. A run that gets every buffer therefore succeeds exactly when its last commit did.
- The MSC INQUIRY allocation length is only byte 19 of the CBW (`MscBot.InquiryAllocationIgnoresHighByte`). The reply sends that many bytes from the 36-byte inquiry table, so a length of 37..255 also sends the memory after the table (`MscBot.InquiryReadsPastTable`).
- READ CAPACITY returns the sector count in the field meant for the last sector's address (`MscBot.CapacityOverstates`).

One MSC check is wrong, and the device model uses the corrected check (see Findings below).

## Model

| member | source | states |
|---|---|---|
| Bytes.Pack16 | common/sensorMT9D.c:51 | packing a high and a low byte with a shift gives a value whose HiByte and LoByte are those bytes |
| Bytes.Split16 | common/sensorMT9D.c:65-66 | splitting a 16-bit value high byte first and packing it again gives the value back |
| Bytes.LE32 | usbMSC/usbMSC.c:760-763 | the CSW residue is four bytes least significant first, decoding back to the value |
| Bytes.BE32 | usbMSC/usbMSC.c:949-952 | the capacity field is four bytes most significant first, decoding back to the value |
| Bytes.LE32OfFromLE32 | usbMSC/usbMSC.c:865-866 | decoding the CBW's little-endian length and encoding it again gives the same four bytes |
| UsbSetup.Decode | usbArmTrace/usbArmTrace.c:1095-1101 | the five setup fields come from the two words, and encoding them gives the words back |
| UsbSetup.DecodeEncode | usbArmTrace/usbArmTrace.c:1095-1101 | every setup packet survives the round trip through the two words |
| UsbSetup.RequestType | usbArmTrace/usbArmTrace.c:1096 | `bmRequestType & 0x60` is one of standard, class, vendor or reserved, and is bits 6..5 |
| UsbSetup.Target | usbArmTrace/usbArmTrace.c:1097 | `bmRequestType & 0x03` is below 4 and is the low two bits |
| SensorBus.ValueBytes | common/sensorMT9D.c:65-66 | the two data bytes of a write pack back to the value |
| SensorBus.ReadValue | common/sensorMT9D.c:44-51 | a successful read returns the value whose bytes were read; a failed read returns 0 from the zeroed buffer |
| SensorBus.ApplyAppend | common/sensorMT9D.c:150-179 | two write sequences in a row act as their concatenation |
| SensorBus.VarWriteEffect | common/sensorMT9D.c:155 | a write through the variable pair selects the variable and stores the value, and no register changes |
| SensorBus.RegWriteEffect | common/sensorMT9D.c:185 | a write to a register outside the pair sets exactly that register |
| SensorBus.ScalingEffect | common/sensorMT9D.c:150-179 | sequencer mode and command become 2 and 2 exactly for 1200 lines, else 0 and 1 |
| SensorBus.AutoFunctionsEffect | common/sensorMT9D.c:182-210 | the auto-function variable becomes 0x21 exactly for a non-zero value, else 0 |
| Mt9d111.WriteDecodes | common/sensorMT9D111.c:53-67 | a register write reaches the register of the address's low byte with its value intact |
| Mt9d111.ReadDecodes | common/sensorMT9D111.c:34-50 | a register read addresses the register of the address's low byte |
| Mt9d111.AddressAliases | common/sensorMT9D111.c:56-58 | two addresses give the same bus write exactly when their low bytes agree |
| Mt9d111.Frames | common/sensorMT9D111.c:53-67 | a write sequence becomes one transaction per write, in order |
| Mt9d111.FramesAppend | common/sensorMT9D111.c:53-67 | the transactions of two write sequences are those of the first, then those of the second |
| Mt9d111.I2cWrite | common/sensorMT9D111.c:71-75 | the high address byte is ignored, and register loAddr receives the 16-bit value hiData, loData |
| Mt9d111.I2cRead | common/sensorMT9D111.c:78-85 | the read addresses loAddr and fills the buffer with the reply, or with zeros on failure |
| Mt9d111.FocusOnTime | common/sensorMT9D111.c:147-148 | the clamped on time lies in 2..254 and equals the value unless the value exceeds 254 |
| Mt9d111.ScalingEffect | common/sensorMT9D111.c:102-116 | mode and command 2 and 2 exactly for 1200 lines, else 0 and 1, and no register changes |
| Mt9d111.ButtonEffect | common/sensorMT9D111.c:119-133 | page 1 is selected and the auto functions become 0x21 exactly for a non-zero value, else 0 |
| Mt9d111.FocusEffect | common/sensorMT9D111.c:136-155 | page 1; GPIO1 disabled with on time 0 for a value up to 1, else enabled with the value clamped to 254; on and off times add up to 255 |
| Mt9d111.FocusWrites | common/sensorMT9D111.c:150-153 | the three GPIO variable writes set enable, off time 255 - on and on time, and no register |
| Mt9d112.WriteDecodes | common/sensorMT9D112.c:54-69 | a register write reaches exactly its 16-bit register with its value |
| Mt9d112.ReadDecodes | common/sensorMT9D112.c:34-51 | a register read addresses exactly its 16-bit register |
| Mt9d112.Frames | common/sensorMT9D112.c:54-69 | a write sequence becomes one transaction per write, in order |
| Mt9d112.FramesAppend | common/sensorMT9D112.c:54-69 | the transactions of two write sequences are those of the first, then those of the second |
| Mt9d112.I2cWrite | common/sensorMT9D112.c:73-77 | the 16-bit register hiAddr, loAddr receives the 16-bit value hiData, loData, both high byte first |
| Mt9d112.I2cRead | common/sensorMT9D112.c:80-86 | the read addresses the 16-bit register hiAddr, loAddr and fills the buffer with the reply, or with zeros on failure |
| Mt9d112.ScalingEffect | common/sensorMT9D112.c:103-117 | mode and command 2 and 2 exactly for 1200 lines, else 0 and 1, through 0x338C/0x3390 |
| Mt9d112.ButtonEffect | common/sensorMT9D112.c:120-131 | variable 0xA102 becomes 0x21 exactly for a non-zero value, else 0; no register changes |
| Mt9d112.FocusEffect | common/sensorMT9D112.c:134-136 | sensorFocus leaves the sensor as it was |
| Mt9dSensor.Detect | common/sensorMT9D.c:757-775 | MT9D111 exactly when register 0 reads 0x1519; MT9D112 exactly when that fails and 0x3000 reads 0x1580; none otherwise |
| Mt9dSensor.DualSensor.WriteReg111 | common/sensorMT9D.c:55-70 | one 8-bit-address write transaction is appended to the bus |
| Mt9dSensor.DualSensor.WriteReg112 | common/sensorMT9D.c:95-111 | one 16-bit-address write transaction is appended to the bus |
| Mt9dSensor.DualSensor.ReadReg111 | common/sensorMT9D.c:35-52 | one 8-bit-address read transaction; the result is the reply's value, or 0 on failure |
| Mt9dSensor.DualSensor.ReadReg112 | common/sensorMT9D.c:74-92 | one 16-bit-address read transaction; the result is the reply's value, or 0 on failure |
| Mt9dSensor.DualSensor.I2cWrite | common/sensorMT9D.c:115-121 | the write of the driver the flag selects: low address byte only on the MT9D111, the full address on the MT9D112 |
| Mt9dSensor.DualSensor.I2cRead | common/sensorMT9D.c:124-129 | the read of the driver the flag selects, with the buffer split high byte first |
| Mt9dSensor.DualSensor.Scaling | common/sensorMT9D.c:150-179 | the bus carries the selected sensor's scaling writes, in order |
| Mt9dSensor.DualSensor.Button | common/sensorMT9D.c:182-210 | the bus carries the selected sensor's button writes, page 1 first on the MT9D111 |
| Mt9dSensor.DualSensor.Focus | common/sensorMT9D.c:213-234 | the bus carries the MT9D111 lens drive, and nothing on the MT9D112 |
| Mt9dSensor.DualSensor.Init | common/sensorMT9D.c:757-776 | page 0, the identification read, the flag set exactly for 0x1519, the second read only otherwise, and the detected sensor |
| Ssd1306.PixelIndex | common/displaySSD1306.c:131-134 | the byte of an on-screen pixel lies inside the 1024-byte frame buffer |
| Ssd1306.SameByte | common/displaySSD1306.c:133 | two pixels share a byte exactly when they share a column and a page |
| Ssd1306.SetPixelEffect | common/displaySSD1306.c:131-139 | setPixel gives its pixel the requested state, and every other pixel, even in the same byte, keeps its state |
| Ssd1306.SetPixelEverywhere | common/displaySSD1306.c:131-139 | the same, for every pixel of the screen at once |
| Ssd1306.PageDataBlocks | common/displaySSD1306.c:154-156 | the refresh sends one block per page, in order, each holding columns xorg..xend of its page |
| Ssd1306.FullWidthRefreshCovers | common/displaySSD1306.c:161-174 | for a full-width rectangle, the refresh sends the byte of every pixel of the rectangle |
| Ssd1306.NarrowRefreshMisses | common/displaySSD1306.c:131-174 | an 8-by-8 rectangle at the origin stores pixel (0, 0) in byte 127, which its refresh never sends |
| Ssd1306.BandsTile | common/displaySSD1306.c:222-251 | the three text bands are full-width, 21 rows high, on screen and disjoint, at y = 0, 21 and 42 |
| Ssd1306.CDiv | common/displaySSD1306.c:241-244 | C's division truncates toward zero: the remainder is smaller than the divisor in magnitude and never has the opposite sign to the dividend |
| Ssd1306.CRem10 | common/displaySSD1306.c:241-245 | C's `% 10` takes the sign of the dividend; quotient and remainder rebuild the value |
| Ssd1306.DigitFieldOfNonNegative | common/displaySSD1306.c:240-245 | for a non-negative value the five characters are zero-padded decimal digits that read back as the value modulo 100000 |
| Ssd1306.NegativeValueText | common/displaySSD1306.c:240-245 | a pan of -1 is shown as "pan 0000/" |
| Ssd1306.Display.SetPixel | common/displaySSD1306.c:131-139 | only the pixel's byte changes, and only the pixel's bit in it |
| Ssd1306.Display.Fill | common/displaySSD1306.c:166-169 | every pixel of the rectangle ends in state `on`, and every other pixel keeps its state |
| Ssd1306.Display.UpdateRect | common/displaySSD1306.c:142-157 | the window command `[0x21, xorg, xend, 0x22, startPage, endPage]` with D/C low, then the page blocks with D/C high |
| Ssd1306.Display.DrawRect | common/displaySSD1306.c:161-174 | the rectangle filled, nothing else changed, then the refresh of pages yorg >> 3 to yend >> 3 |
| Ssd1306.Display.FormatLine3 | common/displaySSD1306.c:234-250 | the label, a space, the five digit characters and NUL |
| Ptz.ZoomSaturates | common/ptz.c:50-56 | every zoom from 254 up drives the MT9D111 lens as 254 does |
| Ptz.ZoomDistinguishes | common/ptz.c:50-56 | below the clamp, different zooms drive the lens differently |
| Ptz.Controls.constructor | common/ptz.c:10-12 | the three values start at zero |
| Ptz.Controls.Init | common/ptz.c:60-65 | zoom is ZOOM_DEFAULT, pan and tilt are 0, and all three are within their advertised ranges |
| Ptz.Controls.ModifyPan | common/ptz.c:34-39 | the pan is stored unclamped and tilt and zoom are untouched; "pan" and the value are shown; the ranges still hold exactly when the value is in range |
| Ptz.Controls.ModifyTilt | common/ptz.c:42-47 | the tilt is stored unclamped and pan and zoom are untouched; "tilt" and the value are shown |
| Ptz.Controls.ModifyZoom | common/ptz.c:50-56 | the zoom is stored unclamped, "zoom" and the value are shown, and the sensor's focus writes follow on the bus |
| UvcStream.CountersWrap | usbArmTrace/usbArmTrace.c:946-951 | the 16-bit increment and decrement of prodCount wrap and undo each other |
| UvcStream.ToggleFrameId | usbArmTrace/usbArmTrace.c:965 | the XOR flips bit 0 of the header byte and keeps bits 7..1 |
| UvcStream.ToggleAdvancesHeader | usbArmTrace/usbArmTrace.c:801-815 | the header after n + 1 frame ends is the toggle of the header after n |
| UvcStream.HeaderToggles | usbArmTrace/usbArmTrace.c:965-966 | two frame ends restore `uvcHeader[1]`; after one, `uvcHeaderEOF[1]` equals it and has lost the EOF bit it started with |
| UvcStream.MergeProbe | usbArmTrace/usbArmTrace.c:1327-1332 | after SET_CUR(PROBE) at super speed, bytes 2..7 come from the received block and every other byte stays |
| UvcStream.StreamingEp0 | usbArmTrace/usbArmTrace.c:1299-1307 | GET_INFO leaves 3 and GET_LEN leaves 26 in byte 0 of the EP 0 buffer |
| UvcStream.StreamingCommit | usbArmTrace/usbArmTrace.c:1322-1324 | a successful SET_CUR data phase lands in commitCtrl |
| UvcStream.StreamingProbe | usbArmTrace/usbArmTrace.c:1322-1336 | only SET_CUR(PROBE) at super speed with a good data phase changes probeCtrl30, and only bytes 2..7 |
| UvcStream.UvcDevice.GpioInterrupt | usbArmTrace/usbArmTrace.c:870-876 | a readable button GPIO raises BUTTON_UP when high and BUTTON_DOWN when low |
| UvcStream.UvcDevice.DmaCallback | usbArmTrace/usbArmTrace.c:881-888 | a consumer event counts one consumed buffer and marks streaming as started |
| UvcStream.UvcDevice.GpifCallback | usbArmTrace/usbArmTrace.c:891-895 | the state machine interrupt sets hitFV |
| UvcStream.UvcDevice.PibCallback | usbArmTrace/usbArmTrace.c:1267-1276 | PIB error 0x1005 or 0x1006 sets backFlowDetected |
| UvcStream.UvcDevice.AbortHandler | usbArmTrace/usbArmTrace.c:1016-1026 | with STREAM_EVENT set, it clears it and raises STREAM_ABORT_EVENT; otherwise nothing changes |
| UvcStream.UvcDevice.StopStreaming | usbArmTrace/usbArmTrace.c:1029-1050 | analyser mode and streaming off, then the GPIF disable, the NAK on the video endpoint, the DMA reset, the flush, the NAK released and the stall clear, in that order |
| UvcStream.UvcDevice.UsbEventCallback | usbArmTrace/usbArmTrace.c:1054-1089 | reset, suspend and disconnect disable the GPIF, mark it unloaded and streaming stopped, and run the abort handler; disconnect also forgets the speed |
| UvcStream.UvcDevice.SetupCallback | usbArmTrace/usbArmTrace.c:1092-1264 | the request is decoded and goes to the vendor, class or endpoint branch; the result says whether it was handled |
| UvcStream.UvcDevice.VendorRequest | usbArmTrace/usbArmTrace.c:1105-1175 | 0xAC takes the host's data phase; 0xAD reads a sensor register and sends its two bytes; 0xAE takes the data phase and writes its first two bytes to a register; 0xAF starts the analyser; 0xA0 and the rest are not handled |
| UvcStream.UvcDevice.StartAnalyser | usbArmTrace/usbArmTrace.c:1132-1168 | a running stream is stopped, the channel switches to analyser mode once, and STREAM_EVENT is raised |
| UvcStream.UvcDevice.ClassRequest | usbArmTrace/usbArmTrace.c:1176-1262 | GET and SET class requests go to the interface handler, requests to an endpoint go to the endpoint handler, and SET_INTERFACE and the rest are left to the stack |
| UvcStream.UvcDevice.InterfaceRequest | usbArmTrace/usbArmTrace.c:1181-1221 | a control-interface request raises VIDEO_CONTROL_EVENT; a streaming-interface request rebuilds the channel and raises VIDEO_STREAM_EVENT |
| UvcStream.UvcDevice.EndpointRequest | usbArmTrace/usbArmTrace.c:1230-1262 | only CLEAR_FEATURE on EP 0x83 is handled: while streaming it stops, otherwise it only acknowledges |
| UvcStream.UvcDevice.StopOnClearFeature | usbArmTrace/usbArmTrace.c:1232-1255 | it stops streaming, acknowledges, sets clearFeatureRqtReceived and aborts |
| UvcStream.UvcDevice.VideoStep | usbArmTrace/usbArmTrace.c:929-1010 | one loop pass: the streaming, abort or idle branch, as STREAM_EVENT and STREAM_ABORT_EVENT select |
| UvcStream.UvcDevice.LeaveIdle | usbArmTrace/usbArmTrace.c:989-1005 | SetXfer, then GPIF load and start when not loaded or a state switch when loaded; loaded afterwards |
| UvcStream.UvcDevice.StreamPass | usbArmTrace/usbArmTrace.c:931-974 | a produced buffer is committed, then the frame is closed when FV was seen and every buffer was consumed |
| UvcStream.UvcDevice.CommitProduced | usbArmTrace/usbArmTrace.c:936-952 | the buffer is full exactly when its count is 16384 - 16; prodCount counts it only if the commit succeeds |
| UvcStream.UvcDevice.AbortPass | usbArmTrace/usbArmTrace.c:975-987 | counters and hitFV cleared, DMA reset and flush only without a CLEAR_FEATURE, and the flag false afterwards |
| UvcStream.UvcDevice.EndOfFrame | usbArmTrace/usbArmTrace.c:956-972 | counters, hitFV and backFlowDetected cleared, the frame ID toggled in both headers, DMA and GPIF restarted |
| UvcStream.UvcDevice.ControlStep | usbArmTrace/usbArmTrace.c:1394-1446 | one pass: the speed read while unknown, video-control requests stalled, video-streaming requests answered, button events ignored |
| UvcStream.UvcDevice.VideoStreamingRequests | usbArmTrace/usbArmTrace.c:1290-1388 | the PROBE and COMMIT answers of section 4.3.1.1 of UVC 1.1; everything else stalls EP 0; COMMIT SET_CUR raises STREAM_EVENT only after a good data phase |
| UvcStream.UvcDevice.CopyProbeFields | usbArmTrace/usbArmTrace.c:1327-1332 | bytes 2..7 of commitCtrl are copied into probeCtrl30 and nothing else changes |
| UvcStream.FrameEndCondition | usbArmTrace/usbArmTrace.c:956-962 | the end-of-frame block runs only with hitFV, equal counters and no partial buffer, and it restarts the frame |
| UvcStream.VideoStepBackFlow | usbArmTrace/usbArmTrace.c:956-962 | a video pass clears backFlowDetected exactly when it ends a frame |
| UvcStream.VideoStepGpif | usbArmTrace/usbArmTrace.c:991-1005 | a video pass loads the GPIF exactly when it leaves idle, and never unloads it |
| UvcStream.VideoStepClearFeature | usbArmTrace/usbArmTrace.c:975-987 | a video pass clears clearFeatureRqtReceived exactly when it is an abort pass |
| UvcStream.LinkEventLatches | usbArmTrace/usbArmTrace.c:1057-1080 | reset, suspend and disconnect unload the GPIF and leave the back-flow and CLEAR_FEATURE latches alone |
| UvcStream.SetupBackFlow | usbArmTrace/usbArmTrace.c:1092-1264 | no setup packet touches backFlowDetected |
| UvcStream.SetupGpif | usbArmTrace/usbArmTrace.c:1029-1036 | a setup packet unloads the GPIF exactly when it stops streaming |
| UvcStream.SetupClearFeature | usbArmTrace/usbArmTrace.c:1230-1255 | only CLEAR_FEATURE on EP 0x83 while streaming sets clearFeatureRqtReceived, and no setup packet clears it |
| UvcStream.StepBackFlow | usbArmTrace/usbArmTrace.c:962 | over every step, only a frame end clears backFlowDetected and only PIB error 0x1005 or 0x1006 sets it |
| UvcStream.StepGpif | usbArmTrace/usbArmTrace.c:996-1000 | over every step, only leaving idle sets gpifInitialized |
| UvcStream.StepClearFeature | usbArmTrace/usbArmTrace.c:1245 | over every step, only CLEAR_FEATURE on EP 0x83 while streaming sets clearFeatureRqtReceived |
| UvcStream.BackFlowLatched | usbArmTrace/usbArmTrace.c:1267-1276 | once set, backFlowDetected stays set over any run of steps without a frame end |
| UvcStream.BackFlowOrigin | usbArmTrace/usbArmTrace.c:1269-1273 | over any run, backFlowDetected becomes set only through a PIB error 0x1005 or 0x1006 |
| UvcStream.ClearFeatureOrigin | usbArmTrace/usbArmTrace.c:1236-1245 | over any run, clearFeatureRqtReceived becomes set only by a CLEAR_FEATURE on EP 0x83 while streaming |
| UvcStream.GpifLoadedBeforeUse | usbArmTrace/usbArmTrace.c:996-1000 | over any run, gpifInitialized becomes set only by leaving idle, which loads and starts the GPIF |
| UvcStream.LeaveIdleLoadsOrSwitches | usbArmTrace/usbArmTrace.c:996-1004 | leaving idle does exactly one of load-and-start or a state switch |
| UvcStream.LinkLossStops | usbArmTrace/usbArmTrace.c:1057-1080 | reset, suspend and disconnect unload the GPIF and stop streaming; disconnect also forgets the speed |
| UvcStream.ClearFeatureResetsOnce | usbArmTrace/usbArmTrace.c:975-987 | after CLEAR_FEATURE while streaming, stopStreaming resets the DMA and the flush happens once, and the abort pass skips its own |
| UvcStream.AbortWithoutClearFeature | usbArmTrace/usbArmTrace.c:981-984 | without a CLEAR_FEATURE the abort pass resets the DMA channel and flushes EP 0x83 itself |
| UvcStream.CommitCounts | usbArmTrace/usbArmTrace.c:936-952 | prodCount moves only on a successful commit, and the full-buffer test is `count == 16384 - 16` |
| MscBot.StatusCode | usbMSC/usbMSC.c:766 | `status & 3` is below 4 and is 0 exactly for PASSED |
| MscBot.CheckScsiCmd | usbMSC/usbMSC.c:737-750 | PASSED exactly when the CBW starts with 'USBC' and 31 bytes arrived, else PHASE_ERROR |
| MscBot.Direction | usbMSC/usbMSC.c:875 | bit 7 of byte 12 as 0 or 1 |
| MscBot.InquiryAllocation | usbMSC/usbMSC.c:909 | the allocation length as computed is byte 19 alone |
| MscBot.InquiryAllocationIgnoresHighByte | usbMSC/usbMSC.c:909 | it equals the big-endian field of section 6.4.1 of SPC-2 exactly when byte 18 is 0 |
| MscBot.InquiryDataShape | usbMSC/usbMSC.c:406-427 | the inquiry table is 36 bytes, marks the medium removable, and its additional-length byte counts the 31 bytes after byte 4 |
| MscBot.InquiryReadsPastTable | usbMSC/usbMSC.c:907-920 | a sent reply is allocLength bytes long and begins with the table; it reads past the table's end exactly when allocLength exceeds 36, by allocLength - 36 bytes |
| MscBot.EncodeCbw | usbMSC/usbMSC.c:865-878 | a host's CBW passes the check, and the parser reads back its tag, length, direction, opcode, LBA and count |
| MscBot.CheckCmdDirection | usbMSC/usbMSC.c:825-849 | FAILED exactly for host-to-device with one of the 11 data-in opcodes, or device-to-host with WRITE(10) |
| MscBot.Geometry | usbMSC/usbMSC.c:1296-1314 | sector size 64, 512 or 1024 by speed and 256 KiB divided by it; nothing when not connected |
| MscBot.GeometryTilesStore | usbMSC/usbMSC.c:1296-1310 | every geometry's sectors tile the store exactly |
| MscBot.SectorRangeAsWrittenAdmits | usbMSC/usbMSC.c:1088-1090 | the check as written admits the corrected ranges plus one more: a non-empty range ending one sector past the last |
| MscBot.AsWrittenReadsPastStore | usbMSC/usbMSC.c:1088-1090 | at high speed, one sector at LBA 512 passes the check as written and ends past the store |
| MscBot.SectorRangeInStore | usbMSC/usbMSC.c:1088-1090 | every range the corrected check admits lies inside the store |
| MscBot.SectorStep | usbMSC/usbMSC.c:1098-1108 | the next sector of an accepted request lies in the store and within the remaining length |
| MscBot.CapacityData | usbMSC/usbMSC.c:949-962 | READ CAPACITY data is 8 bytes: the sector count, then the sector size, each four bytes big-endian |
| MscBot.CapacityDataFields | usbMSC/usbMSC.c:949-962 | the host reads back the sector count and the sector size |
| MscBot.CapacityOverstates | usbMSC/usbMSC.c:948-952 | the first READ CAPACITY field is the sector count, not the last address that section 5.10.2 of SBC-2 asks for; a host reading it as that sizes the disk one sector past the store |
| MscBot.FormatCapacityData | usbMSC/usbMSC.c:939-962 | READ FORMAT CAPACITIES data is 12 bytes: a list header of length 8, then one descriptor with the count, the formatted flag 0x02 and the size |
| MscBot.FormatCapacityDataFields | usbMSC/usbMSC.c:939-962 | the host reads back the header, the count, the formatted flag and the size |
| MscBot.SenseData | usbMSC/usbMSC.c:988-1000 | fixed-format sense of section 7.23.2 of SPC-2: 0x70, the key at 2, 0x0A at 7, ASC and ASCQ at 12 and 13 from the table row |
| MscBot.CswBytes | usbMSC/usbMSC.c:443-445 | a CSW is 'USBS', the tag, the residue little-endian and the status code |
| MscBot.CswBytesFields | usbMSC/usbMSC.c:760-766 | the host reads back signature, tag, residue and status |
| MscBot.ReadSectorsPrefix | usbMSC/usbMSC.c:1098-1108 | the first j sends of a longer READ(10) are those of a READ(10) of j sectors |
| MscBot.ReadSectorsInOrder | usbMSC/usbMSC.c:1098-1108 | send i carries sector lba + i, so the sectors go out in order |
| MscBot.ReadAfterWrite | usbMSC/usbMSC.c:1140-1150 | reading back what WRITE(10) stored gives the host's data, sector by sector |
| MscBot.WriteSectorsKeepsOthers | usbMSC/usbMSC.c:1140-1150 | WRITE(10) leaves every byte outside the written sectors as it was |
| MscBot.WriteSectorsStep | usbMSC/usbMSC.c:1140-1150 | one more received sector lays that sector of the host's data over sector lba + k |
| MscBot.AcceptedHasSectors | usbMSC/usbMSC.c:1081-1090 | an accepted request names at least one sector of a configured disk |
| MscBot.CommandOf | usbMSC/usbMSC.c:887-1165 | the switch case each opcode selects; opcodes without a case reach the default |
| MscBot.DirectionFailureSkips | usbMSC/usbMSC.c:873-884 | a failed direction check fails with the whole length as residue and leaves sense and data alone |
| MscBot.UnknownOpcodeFails | usbMSC/usbMSC.c:1165-1174 | an unknown opcode fails with INVALID_OP_CODE and the whole length as residue |
| MscBot.NoDataCommands | usbMSC/usbMSC.c:889-906 | TEST UNIT READY and PREVENT ALLOW MEDIUM REMOVAL succeed exactly when no data is to move |
| MscBot.VerifySucceeds | usbMSC/usbMSC.c:1157-1162 | VERIFY(10) always succeeds once the direction check passes |
| MscBot.CapacityZeroLength | usbMSC/usbMSC.c:977-982 | capacity requests with zero length fail with INVALID_FIELD |
| MscBot.CapacityResidue | usbMSC/usbMSC.c:965-976 | otherwise the residue is the distance between the length and the reply size, the sense is OK, and only a failed send fails |
| MscBot.CapacitySent | usbMSC/usbMSC.c:939-970 | the reply sent is the capacity layout of the current geometry |
| MscBot.RequestSenseCommand | usbMSC/usbMSC.c:986-1018 | for a non-zero length the current sense row goes out cut to 18 bytes and the sense resets to OK; the command passes exactly when the send succeeds and at most 36 bytes were asked for |
| MscBot.SectorCommandRejected | usbMSC/usbMSC.c:1088-1095 | a rejected READ(10) or WRITE(10) fails with INVALID_FIELD, moves nothing and keeps the store |
| MscBot.SectorCommandAccepted | usbMSC/usbMSC.c:1098-1111 | an accepted one ends with sense OK and the unmoved bytes as residue; it fails exactly when a transfer failed |
| MscBot.SectorCommandCompletes | usbMSC/usbMSC.c:1098-1111 | when every transfer succeeds on a connected link, all the sectors move and the command passes |
| MscBot.ParseNeverResets | usbMSC/usbMSC.c:853-1185 | the parser reports only PASSED or FAILED |
| MscBot.LpmRequestAccepted | usbMSC/usbMSC.c:675-678 | every U1/U2 entry is accepted |
| MscBot.StepKeepsInv | usbMSC/usbMSC.c:1273-1465 | every step keeps the invariant; a phase error is set only by a received CBW and cleared only by the Bulk-Only reset |
| MscBot.SetupKeepsInv | usbMSC/usbMSC.c:476-634 | a setup request keeps the invariant, and only the Bulk-Only reset clears the phase error |
| MscBot.InitialInv | usbMSC/usbMSC.c:459 | the device starts unconfigured, with sense DEVICE_RESET, waiting for SET_CONFIGURATION |
| MscBot.PhaseErrorHoldsUntilBotReset | usbMSC/usbMSC.c:1374-1378 | once in a phase error the device stays in it, receiving no CBW, until a Bulk-Only Mass Storage Reset |
| MscBot.CswEchoesTag | usbMSC/usbMSC.c:1403-1408 | the CSW of an accepted CBW carries that CBW's tag |
| MscBot.MscDevice.constructor | usbMSC/usbMSC.c:443-459 | the statics' initial values and the zeroed store |
| MscBot.MscDevice.ParseScsiCmd | usbMSC/usbMSC.c:853-1185 | the outcome, residue, sense, response buffer, sent data and store the specification functions give |
| MscBot.MscDevice.InquiryCommand | usbMSC/usbMSC.c:907-928 | when both lengths are non-zero, one send of allocLength bytes starts at the 36-byte inquiry table; the logged action carries the table bytes it covers, which are all of it only for allocLength up to 36 |
| MscBot.MscDevice.FillCapacity | usbMSC/usbMSC.c:933-962 | the response buffer holds the capacity reply over cleared bytes |
| MscBot.MscDevice.ModeSenseCommand | usbMSC/usbMSC.c:1020-1055 | the 4-byte mode parameter header goes out; the residue and sense follow the length |
| MscBot.MscDevice.SendSector | usbMSC/usbMSC.c:683-707 | the send fails at once while the speed is unknown, otherwise the DMA outcome decides; a sent sector reaches the host as exactly the store's bytes at its offset |
| MscBot.MscDevice.ReceiveSector | usbMSC/usbMSC.c:710-733 | the receive fails at once while the speed is unknown, otherwise the DMA outcome decides; a received chunk replaces exactly the store's bytes at its offset, and a failed one leaves the store alone |
| MscBot.MscDevice.ReadLoop | usbMSC/usbMSC.c:1098-1108 | the sectors go out in order until a send fails; the residue counts what did not move |
| MscBot.MscDevice.WriteLoop | usbMSC/usbMSC.c:1140-1150 | each received sector lands at `mscLba * sectorSize`; the loop ends at the first failed receive |
| MscBot.MscDevice.SendCsw | usbMSC/usbMSC.c:754-821 | residue and `status & 3` framed; a phase error latches and stalls both endpoints; a failed send returns MSC_RESET |
| MscBot.MscDevice.CommandReceived | usbMSC/usbMSC.c:1393-1414 | LPM is disabled first, with the link moved to U0 at super speed; then the CBW is checked; a valid one has its tag copied and is parsed; the CSW goes out with the status |
| MscBot.WakeActions | usbMSC/usbMSC.c:1396-1399 | a received CBW disables LPM first, and moves the link to U0 exactly when the speed is super speed |
| MscBot.MscDevice.Wake | usbMSC/usbMSC.c:1396-1399 | logs the LPM disable and, at super speed only, the move to U0 |
| MscBot.MscDevice.QueuePass | usbMSC/usbMSC.c:1374-1390 | the read is dropped during a phase error, otherwise queued, and a queued read enables LPM; a failed set-up takes the reset branch |
| MscBot.MscDevice.ConfigPass | usbMSC/usbMSC.c:1286-1360 | the geometry of the speed, then the IN channel, the OUT channel only if the IN one was created, and the flushes only if both were; a failed creation parks the thread |
| MscBot.ConfigActions | usbMSC/usbMSC.c:1329-1356 | the IN channel creation is always the first call, and the endpoints are flushed exactly when both creations succeed |
| MscBot.MscDevice.ResetPass | usbMSC/usbMSC.c:1423-1443 | both endpoints stalled, the channels reset when created, sense DEVICE_RESET |
| MscBot.MscDevice.DisconnectPass | usbMSC/usbMSC.c:1445-1461 | a lost link destroys the channels, sets sense DEVICE_RESET and leaves the loop |
| MscBot.MscDevice.UsbEventCallback | usbMSC/usbMSC.c:637-664 | reset, suspend, disconnect and connect abort the channels when created, set sense DEVICE_RESET, the speed unknown and the device unconfigured |
| MscBot.MscDevice.SetupCallback | usbMSC/usbMSC.c:476-634 | standard or class handler by the type bits; the result says whether the request was handled |
| MscBot.MscDevice.FunctionSuspend | usbMSC/usbMSC.c:497-505 | acknowledged when configured, stalled otherwise, and handled |
| MscBot.MscDevice.SetConfiguration | usbMSC/usbMSC.c:507-558 | the first one configures the OUT and then the IN endpoint at the speed's packet size and raises the event; a failure of either hangs, and the IN call is made only after the OUT one succeeds |
| MscBot.MscDevice.ClearFeature | usbMSC/usbMSC.c:560-585 | acknowledged during a phase error, else the stall of the bulk endpoint in wIndex is cleared |
| MscBot.MscDevice.ClassRequest | usbMSC/usbMSC.c:587-630 | Get Max LUN answers one 0 byte only for wLength 1; the reset clears the phase error and sets DEVICE_RESET for wLength 0; the rest stall |
| UacAudio.PageCount | usbUAC/usbUAC.c:774-780 | the pages a transfer touches: 0 for no bytes, otherwise the byte count divided by the page size, rounded up |
| UacAudio.ReadCommand | usbUAC/usbUAC.c:789-794 | 0x03 and the 24-bit big-endian byte address |
| UacAudio.Address24 | usbUAC/usbUAC.c:789-791 | the three address bytes are the address modulo 2^24, most significant first |
| UacAudio.ReadCommands | usbUAC/usbUAC.c:785-830 | page n is read at `pageAddress * 256 + n * 256` |
| UacAudio.PagesContiguous | usbUAC/usbUAC.c:785-830 | inside the flash, consecutive pages read back as one contiguous range |
| UacAudio.ReadAddressNext | usbUAC/usbUAC.c:1002-1007 | each read address follows the previous one in the cycle |
| UacAudio.CycleCoversPastSample | usbUAC/usbUAC.c:48 | a cycle is 122 reads of pages 0 to 975, three pages past the sample size |
| UacAudio.FirstCycleIsFlashPrefix | usbUAC/usbUAC.c:999-1055 | within the first cycle the reads return the flash from address 0, without gap or repeat |
| UacAudio.CommittedIsFlashPrefix | usbUAC/usbUAC.c:1011-1055 | while no commit failed in the first cycle, the committed packets are the flash from 0 in order |
| UacAudio.RefillKeepsCore | usbUAC/usbUAC.c:999-1008 | a refill keeps every byte accounted for, and the new bytes follow the carried tail |
| UacAudio.CopyKeepsReady | usbUAC/usbUAC.c:1022-1026 | a whole packet copied from the SPI buffer is ready for its commit |
| UacAudio.StartPartialKeepsValid | usbUAC/usbUAC.c:1027-1035 | a tail shorter than a packet moves from the SPI buffer to the start of the USB buffer |
| UacAudio.CompletePartialKeepsReady | usbUAC/usbUAC.c:1038-1045 | completing the tail with the next bytes readies the packet |
| UacAudio.CommitKeepsValid | usbUAC/usbUAC.c:1047-1055 | on success the packet joins the committed ones and the page address wraps; on failure it is lost |
| UacAudio.ActiveAfter | usbUAC/usbUAC.c:646-666 | SET_INTERFACE(1, 1) starts the stream when every start call succeeds; the other stopping events stop it |
| UacAudio.EventActionsOrder | usbUAC/usbUAC.c:646-666 | a running stream is stopped before it is started, and other events touch nothing |
| UacAudio.SetupReply | usbUAC/usbUAC.c:688-701 | FUNCTION_SUSPEND is acknowledged while streaming and stalled otherwise |
| UacAudio.UacDevice.Refill | usbUAC/usbUAC.c:999-1008 | 2048 bytes from pageAddress into the SPI buffer, offset 0, pageAddress 8 further on |
| UacAudio.UacDevice.StreamPass | usbUAC/usbUAC.c:997-1055 | one pass of the packetiser: refill, buffer, copy or carry, and commit, keeping the stream invariant |
| UacAudio.UacDevice.Commit | usbUAC/usbUAC.c:1047-1055 | every committed buffer is 96 bytes; the page address returns to 0 from 0x3CD on |
| UacAudio.UacDevice.PrefixOfFlash | usbUAC/usbUAC.c:1047-1055 | while no commit failed, the committed packets are the stream read so far, in order |
| UacAudio.UacDevice.Start | usbUAC/usbUAC.c:558-609 | active exactly when endpoint configuration, channel creation and SetXfer all succeed, stopping at the first failure |
| UacAudio.UacDevice.Stop | usbUAC/usbUAC.c:615-636 | inactive first, then the channels reset and destroyed and the endpoint flushed and disabled |
| UacAudio.UacDevice.UsbEventCallback | usbUAC/usbUAC.c:641-671 | SET_INTERFACE(1, 1) stops a running stream and starts it; other SET_INTERFACE, SETCONF, reset and disconnect stop only when active |
| UacAudio.UacDevice.SetupCallback | usbUAC/usbUAC.c:675-710 | FUNCTION_SUSPEND answered and handled; a class request hangs; everything else unhandled |
| UacAudio.UacDevice.SpiTransfer | usbUAC/usbUAC.c:769-834 | no page for 0 bytes, otherwise each page's command then its 256 bytes, in order |
| HidMouse.TableSizes | usbMouseHID/usbMouseHID.c:300-321 | the table holds 236 two-byte reports and the descriptor sent is all 28 bytes |
| HidMouse.RunCommitsTable | usbMouseHID/usbMouseHID.c:571-616 | a run commits the table's reports in order, report k being bytes 2k and 2k + 1, up to the first report without a buffer |
| HidMouse.ReportCommits | usbMouseHID/usbMouseHID.c:584-602 | a report that got a buffer is committed once with its table entry; one that got none is not committed |
| HidMouse.ReportsCommit | usbMouseHID/usbMouseHID.c:584-612 | the first n reports, all with a buffer, commit the first n table entries in order |
| HidMouse.RunEnd | usbMouseHID/usbMouseHID.c:587-592 | a run ends at the first report whose buffer could not be got even on the retry |
| HidMouse.Successes | usbMouseHID/usbMouseHID.c:940-944 | the successful runs, never more than the runs made |
| HidMouse.DrainStep | usbMouseHID/usbMouseHID.c:940-946 | one more run of the drain loop adds its calls and its success to those before |
| HidMouse.Inc32 | usbMouseHID/usbMouseHID.c:631 | `glButtonPress++` on 32 bits adds one, or wraps to 0 |
| HidMouse.EventActivity | usbMouseHID/usbMouseHID.c:732-754 | SET_CONFIGURATION leaves the device active when the start succeeds; reset and disconnect make it inactive |
| HidMouse.FunctionSuspendAnswer | usbMouseHID/usbMouseHID.c:776-786 | FUNCTION_SUSPEND is handled, acknowledged while active and stalled otherwise |
| HidMouse.ClearHaltAnswer | usbMouseHID/usbMouseHID.c:788-803 | CLEAR_FEATURE(halt) of EP 0x81 recovers it while active; otherwise it is not handled here |
| HidMouse.ReportDescriptorAnswer | usbMouseHID/usbMouseHID.c:806-812 | the report descriptor request sends all 28 bytes, with a stall if that fails |
| HidMouse.SetIdleAnswer | usbMouseHID/usbMouseHID.c:814-820 | SET_IDLE is handled and acknowledged |
| HidMouse.HidDevice.SendOne | usbMouseHID/usbMouseHID.c:584-609 | the buffer, retried once after a reset; the report committed, and a reset after a failed commit |
| HidMouse.HidDevice.SendReport | usbMouseHID/usbMouseHID.c:571-616 | succeeds exactly when the run does; the log is the run's calls |
| HidMouse.HidDevice.DrainPresses | usbMouseHID/usbMouseHID.c:938-946 | the counter never underflows, drops by the successful runs, and each failed run stalls EP 0x81 |
| HidMouse.HidDevice.ThreadWake | usbMouseHID/usbMouseHID.c:933-948 | the wait takes the GPIO event; a successful wait goes on to the drain loop |
| HidMouse.HidDevice.GpioInterrupt | usbMouseHID/usbMouseHID.c:621-636 | a press counts and sets the event only for GPIO 45 read back low |
| HidMouse.HidDevice.Start | usbMouseHID/usbMouseHID.c:643-689 | active afterwards, unless an endpoint or channel failure hangs |
| HidMouse.HidDevice.Stop | usbMouseHID/usbMouseHID.c:695-728 | inactive first; a failed endpoint disable or GPIO de-initialisation hangs |
| HidMouse.HidDevice.UsbEventCallback | usbMouseHID/usbMouseHID.c:732-754 | SET_CONFIGURATION stops a running application and starts it; reset and disconnect stop it only when active |
| HidMouse.HidDevice.SetupCallback | usbMouseHID/usbMouseHID.c:758-824 | the four handled requests; SET_IDLE also sets the press counter to 0 |
| Analyser.PacketConfigMatchesDescriptors | usbAnalyser/usbAnalyser.c:275-282 | the endpoint shape for each speed is the descriptor's wMaxPacketSize, with a super-speed burst of bMaxBurst + 1; a burst never exceeds one DMA buffer and fills it exactly at super speed |
| Analyser.ActiveAfter | usbAnalyser/usbAnalyser.c:346-376 | SET_CONFIGURATION sets appActive, reset and disconnect clear it |
| Analyser.ForceAfterEvent | usbAnalyser/usbAnalyser.c:360-362 | reset and disconnect clear glForceLinkU2, other events keep it |
| Analyser.EventStopsAndStarts | usbAnalyser/usbAnalyser.c:353-366 | a stop only when active and the event is SETCONF, reset or disconnect; a start exactly for SETCONF, after any stop |
| Analyser.FunctionSuspendAnswer | usbAnalyser/usbAnalyser.c:430-448 | FUNCTION_SUSPEND is always handled: acknowledged and recorded in glForceLinkU2 while active, stalled with it unchanged otherwise |
| Analyser.ClearHaltAnswer | usbAnalyser/usbAnalyser.c:451-477 | CLEAR_FEATURE(halt) is handled exactly while active and for EP 0x81, where it recovers the endpoint |
| Analyser.WakeEffect | usbAnalyser/usbAnalyser.c:637-643 | a press alone turns the auto functions on (0x21); a release, or both together, leaves them off |
| Analyser.WakeFrames | usbAnalyser/usbAnalyser.c:639-642 | the bus traffic of a wake-up is the press's writes, then the release's |
| Analyser.Received | usbAnalyser/usbAnalyser.c:409 | what the EP 0 data phase leaves: the host's bytes over the start of the buffer, the rest kept |
| Analyser.WriteRegReaches | usbAnalyser/usbAnalyser.c:407-414 | the value the host sent high byte first reaches register wValue, the low address byte only on the MT9D111 |
| Analyser.ReadRegReturns | usbAnalyser/usbAnalyser.c:398-405 | the request reads register wValue and returns the reply, or zeros on a bus error |
| Analyser.AnalyserDevice.Start | usbAnalyser/usbAnalyser.c:270-309 | the endpoint shaped for the speed, the channel and the GPIF started, active afterwards |
| Analyser.AnalyserDevice.Stop | usbAnalyser/usbAnalyser.c:312-328 | inactive first, then the GPIF, the channel and the endpoint shut down |
| Analyser.AnalyserDevice.UsbEventCallback | usbAnalyser/usbAnalyser.c:346-376 | SETCONF restarts the application; reset and disconnect clear glForceLinkU2 and stop it when active |
| Analyser.AnalyserDevice.VendorRequest | usbAnalyser/usbAnalyser.c:393-427 | 0xAD reads a sensor register and sends two bytes; 0xAE writes the host's two bytes to one; 0xAF takes the data phase; 0xA0 is not handled and any other request is shown with line3 |
| Analyser.AnalyserDevice.SetupCallback | usbAnalyser/usbAnalyser.c:379-481 | vendor requests 0xAD, 0xAE and 0xAF with the bus, EP 0 buffer and log effects of VendorRequest, and other vendor codes shown with line3; then the standard ones, which leave the EP 0 buffer alone; class requests are not handled |
| Analyser.AnalyserDevice.GpioInterrupt | usbAnalyser/usbAnalyser.c:257-265 | a readable GPIO 45 sets the release flag when high and the press flag when low |
| Analyser.AnalyserDevice.ThreadWake | usbAnalyser/usbAnalyser.c:637-643 | both flags are taken, and a press then a release go to the sensor in that order |

## Left out

- Cypress SDK calls (DMA, GPIF, USB, I2C, SPI, GPIO, UART): the SDK is not part of this model. The calls on the paths the model covers that change the device, the bus or the link (a failed one included) are logged actions, and any result they return is a method parameter. Not logged: debug prints (`CyU3PDebugPrint`), the sleeps and busy-waits under Timing below, the calls that only set up SDK threads and event groups or wait on them, and the initialisation code listed further down. `CyU3PMemSet` and `CyU3PMemCopy` are modelled as the buffer contents they change.
- Threads and event-group waits: every callback and thread pass runs atomically. The model has no interleaving or preemption. This leaves out, for example, a HID SET_IDLE arriving in the middle of the drain loop.
- Timing and polling: `CyU3PBusyWait`, `CyU3PThreadSleep`, `CyUacFxSpiWaitForStatus` and the link-power loops of the analyser's `appThreadFunc` are left out.
- Display messages: the `line2`/`line3` calls of the UVC and MSC firmware are not modelled, and neither are the debug prints. The HID and analyser firmware log theirs as actions, and the PTZ setters record the band they draw.
- LPM callbacks of the UAC, HID and analyser firmware: each only returns a constant. Only the MSC one is modelled (`MscBot.LpmRequestAccepted`).
- `main`, `CyFxApplicationDefine`, `appInit`, `gpioInit`, `debugInit`, the IO matrix and the USB descriptor tables. This includes the analyser's no-renumeration restart in `appInit`.
- Sensor register tables (`sensorInit111`, `sensorInit112`, the `sensorInit` bodies of the MT9D111 and MT9D112 drivers), `I2Cinit`, and `sensorGetBrightness`/`sensorSetBrightness`. The brightness functions only return a constant or print.
- Mt9dSensor.DualSensor.Scaling, Mt9dSensor.DualSensor.Button: the resolution and mode texts that `sensorScaling` and `sensorButton` show with `line2` are not modelled, only their register writes.
- Mt9dSensor.DualSensor.Init: the `line3` progress messages and the chosen sensor's register table are not modelled.
- `drawString` glyph rendering depends on a font that is not part of this model. `line1`/`line2` are recorded only as the band and text they would draw. `spiInit` and `displayInit` are left out.
- UVC payload-header bytes in video buffers: the branch that would write them is empty in this build, and the partial-buffer wrap-up is commented out, so `gotPartial` is never set.
- UVC `processingUnitRequests`, `cameraTerminalRequests` and the extension-unit case only stall EP 0. They are modelled as that stall.
- The UVC and MSC thread loops are modelled as their individual passes, taken in any order the run model allows. The loops' infinite `for (;;)` shell is not modelled.
- MscBot.MscDevice.ParseScsiCmd: the READ(10)/WRITE(10) range check is the corrected one from the Findings section, not the one as written.
- MscBot.MscDevice.CommandReceived: the thread ignores the MSC_RESET that `CyFxMscSendCsw` returns when its send fails. The model keeps this, so the reset branch is reached only through a failed read set-up.
- MscBot.RequestSenseCommand: a REQUEST SENSE asking for more than 36 bytes fails even though 18 bytes were sent. This is kept as written.
- MscBot.CapacityOverstates: READ CAPACITY reports the sector count where the last address belongs. This is kept as written, and the lemma states what it costs a host.
- MscBot.InquiryAllocation: the allocation length is only byte 19 of the CBW, as written, not the 16-bit field of the SCSI command.
- UacAudio.UacDevice.SpiTransfer: a page that fails is modelled as the error handler (hung). The partial state of the SDK channel after a failure is not modelled.
- UacAudio.UacDevice.SetupCallback: a class request spins for ever in the callback. It is modelled as a hung setup context, and both USB callbacks require that the context has not hung, so no callback runs after it.
- UAC after a Stop and a Start: the thread goes on from the locals it had, and the model keeps them. The stale SDK buffer handle is not modelled.
- UAC flash contents are a parameter (a `seq` of bytes), and the flash does not change.
- HidMouse.HidDevice.Start: `CyFxUsbHidAppStop` de-initialises the GPIO block, and nothing restores it on the next start. The model records the call but not its effect on later interrupts.
- HidMouse.HidDevice.ThreadWake: the test `(evStat & FLAG) or glButtonPress` always holds after a successful wait on that one flag. It is modelled as true.
- HidMouse.HidDevice.DrainPresses: `while (glButtonPress)` can retry for ever. The model takes a finite list of run outcomes and stops when they run out.
- The error handlers of the HID, UAC and MSC firmware never return. They are modelled as flags that record the stuck context (`hung`; `threadHung` and `callbackHung` for MSC) instead of an endless sleep.
- UvcStream.UvcDevice.VendorRequest: vendor requests 0xAC, 0xAE and 0xAF take a data phase of the host's wLength, which may be up to 65535, into the 32-byte glEp0Buffer. The data phase is assumed to fit the buffer. The overrun that a wLength above 32 causes is not modelled.
- UvcStream.UvcDevice.ReceiveEp0: host bytes past the 32-byte glEp0Buffer are dropped (`UvcStream.Overlay`), not written past the buffer's end as the SDK call would write them.
- MscBot.MscDevice.InquiryCommand: for an allocation length above 36 the bytes sent after the inquiry table are whatever memory follows it. The model records the table bytes the send covers and its length, not those further bytes.
- Analyser.AnalyserDevice.VendorRequest: the host's data phase is assumed to fit both the 4096-byte EP 0 buffer and wLength. The overrun a longer data phase would cause is not modelled.
- Analyser class requests are not handled by the firmware. The model leaves them unhandled and does nothing else with them.

## Findings

| source | as written | input that shows it | evidently intended | confidence | as-written member | corrected member |
|---|---|---|---|---|---|---|
| usbMSC/usbMSC.c:1088-1090 | the range check rejects `lba + count > maxSectors + 1`, so a range may end one sector past the last | high speed (512 sectors of 512 bytes), READ(10) of 1 sector at LBA 512: it passes the check and reads bytes 262144..262655 of a 262144-byte store | `lba + count <= maxSectors` | not executed | MscBot.AsWrittenReadsPastStore | MscBot.SectorRangeInStore |
